/** The tag table of section 7.3 of ICC.1:2010: the directory after the header, and the tags it points to. */
module TagTables {
  import opened Wrappers
  import opened JavaNum
  import opened Streams
  import opened TagTypes
  import opened Tags
  import TagDispatch

  /** A `TagTableEntry`: the type looked up from the directory signature (`None` for null), the offset and size
      of the tag data, and the tag once `readTags` has decoded it. */
  datatype Entry = Entry(tagType: Option<TagType>, offset: int, size: int, tag: Option<Tag>)

  /** The directory entry at x: signature, offset and size, unsigned 32-bit each, and no tag yet. */
  function EntryAt(d: seq<byte>, x: int): Entry
    requires 0 <= x && x + 12 <= |d|
  {
    Entry(Lookup(U32At(d, x)), U32At(d, x + 4), U32At(d, x + 8), None)
  }

  /** The n directory entries after q. */
  function DirectoryAt(d: seq<byte>, q: int, n: nat): (r: seq<Entry>)
    requires 0 <= q && q + 12 * n <= |d|
    ensures |r| == n
  {
    seq(n, i requires 0 <= i < n => EntryAt(d, q + 12 * i))
  }

  /** One more entry extends the directory by the entry at its end. */
  lemma DirectoryAtSnoc(d: seq<byte>, q: int, n: nat)
    requires 0 <= q && q + 12 * (n + 1) <= |d|
    ensures DirectoryAt(d, q, n + 1) == DirectoryAt(d, q, n) + [EntryAt(d, q + 12 * n)]
  {
  }

  /** A freshly read directory holds no tags, and its offsets and sizes are unsigned. */
  lemma DirectoryUndecoded(d: seq<byte>, q: int, n: nat)
    requires 0 <= q && q + 12 * n <= |d|
    ensures forall i :: 0 <= i < n ==>
      DirectoryAt(d, q, n)[i].tag.None? && 0 <= DirectoryAt(d, q, n)[i].offset && 0 <= DirectoryAt(d, q, n)[i].size
  {
    forall i | 0 <= i < n
      ensures DirectoryAt(d, q, n)[i] == EntryAt(d, q + 12 * i)
    {
    }
  }

  /** The map key of each entry, in directory order. */
  function Types(entries: seq<Entry>): (r: seq<Option<TagType>>)
    ensures |r| == |entries| && forall i :: 0 <= i < |entries| ==> r[i] == entries[i].tagType
  {
    seq(|entries|, i requires 0 <= i < |entries| => entries[i].tagType)
  }

  /** The `tagMap` built by putting entry i under its key for i = 0, 1, ...: the map holds references, so it is
      written here as the position of the entry it refers to. */
  function IndexMap(types: seq<Option<TagType>>): map<Option<TagType>, nat>
    decreases |types|
  {
    if types == [] then map[]
    else IndexMap(types[..|types| - 1])[types[|types| - 1] := |types| - 1]
  }

  /** A key is in the map exactly when some entry has it, and it refers to the last such entry: a later
      duplicate overwrites an earlier one, and the null key works like any other. */
  lemma {:induction false} IndexMapLast(types: seq<Option<TagType>>, k: Option<TagType>)
    ensures k in IndexMap(types) <==> exists i :: 0 <= i < |types| && types[i] == k
    ensures k in IndexMap(types) ==>
      var i := IndexMap(types)[k];
      i < |types| && types[i] == k && forall j :: i < j < |types| ==> types[j] != k
    decreases |types|
  {
    if types != [] {
      var n := |types| - 1;
      var front := types[..n];
      IndexMapLast(front, k);
      if types[n] != k && k in IndexMap(front) {
        var i := IndexMap(front)[k];
        assert types[i] == front[i];
      }
      if exists i :: 0 <= i < |types| && types[i] == k {
        var i :| 0 <= i < |types| && types[i] == k;
        if i < n {
          assert front[i] == k;
        }
      }
    }
  }

  /** `getTag` over the entries: the tag of the last entry of that type, null when no entry has it, and null too
      when that entry was never decoded. */
  function TagOf(entries: seq<Entry>, t: TagType): (r: Option<Tag>)
    ensures (forall i :: 0 <= i < |entries| ==> entries[i].tagType != Some(t)) ==> r.None?
    ensures (exists i :: 0 <= i < |entries| && entries[i].tagType == Some(t)) ==>
      exists i :: 0 <= i < |entries| && entries[i].tagType == Some(t) && r == entries[i].tag &&
        forall j :: i < j < |entries| ==> entries[j].tagType != Some(t)
  {
    var m := IndexMap(Types(entries));
    IndexMapLast(Types(entries), Some(t));
    if Some(t) in m then entries[m[Some(t)]].tag else None
  }

  /** The bytes `rai.createInputStream(offset, size)` delivers: `size` bytes from `offset`, cut short at the end of
      the profile. */
  function Window(d: seq<byte>, offset: int, size: int): (w: seq<byte>)
    requires 0 <= offset && 0 <= size
    ensures |w| <= size && (offset + size <= |d| ==> w == d[offset..offset + size])
  {
    if |d| <= offset then [] else if offset + size <= |d| then d[offset..offset + size] else d[offset..]
  }

  /** The type `readTags` dispatches on: the one named by the first four bytes of the tag data, whatever the
      directory said. */
  function PayloadType(d: seq<byte>, e: Entry): Option<TagType>
    requires 0 <= e.offset && 0 <= e.size && 4 <= |Window(d, e.offset, e.size)|
  {
    Lookup(U32At(Window(d, e.offset, e.size), 0))
  }

  /** What `readTags` leaves in an entry: with an unknown payload type or one without a reader the tag is not
      touched; otherwise it is what that type's reader made of the entry's window after its type signature, with
      the entry's size as the tag length: of the reader's kind and type, and with the fields read from there. */
  predicate Decoded(d: seq<byte>, before: Entry, after: Entry)
  {
    0 <= before.offset && 0 <= before.size && 4 <= |Window(d, before.offset, before.size)| &&
    after.(tag := before.tag) == before &&
    match PayloadType(d, before)
    case None => after.tag == before.tag
    case Some(t) =>
      match GetTagReader(t)
      case None => after.tag == before.tag
      case Some(reader) =>
        after.tag.Some? && TagDispatch.Produces(reader.kind, after.tag.value) && WellShaped(after.tag.value) &&
        after.tag.value.TypeOf() == (if reader.kind == LutAtoBReader then LutAToBType else t) &&
        TagDispatch.ReadAt(reader, S32(before.size), Window(d, before.offset, before.size), 4, after.tag.value)
  }

  /** A tag `readTags` has just set: present, and a curve tag is a new object with no inverse yet. */
  twostate predicate NewTag(new tag: Option<Tag>)
    reads if tag.Some? && tag.value.IsCurve() then {tag.value.AsCurve().Object()} else {}
  {
    tag.Some? && (tag.value.IsCurve() ==> fresh(tag.value.AsCurve().Object()) && tag.value.AsCurve().Memo() == null)
  }

  /** One step of `readTags`: the entry's window, its payload signature, and the reader of that type if there is
      one. */
  method DecodeEntry(d: seq<byte>, e: Entry) returns (r: Result<Entry>)
    requires 0 <= e.offset && 0 <= e.size
    ensures r.Ok? ==> Decoded(d, e, r.value) && (r.value.tag != e.tag ==> NewTag(r.value.tag))
  {
    var input := new ByteStream(Window(d, e.offset, e.size), 0);
    var signature :- input.ReadU32BE();
    var tagType := Create(signature);
    if tagType.Some? {
      var reader := GetTagReader(tagType.value);
      if reader.Some? {
        var tag :- TagDispatch.ReadTag(reader.value, S32(e.size), input);
        return Ok(e.(tag := Some(tag)));
      }
    }
    return Ok(e);
  }

  /** A `TagTable`: the count, the entries in directory order, and the map from type to entry. */
  class TagTable {
    const tagCount: int32
    var entries: seq<Entry>
    const tagMap: map<Option<TagType>, nat>

    /** One entry per count, and the map built from the entries' types. */
    predicate Valid()
      reads this
    {
      |entries| == tagCount && tagMap == IndexMap(Types(entries))
    }

    constructor (tagCount: int32, entries: seq<Entry>, tagMap: map<Option<TagType>, nat>)
      ensures this.tagCount == tagCount && this.entries == entries && this.tagMap == tagMap
    {
      this.tagCount := tagCount;
      this.entries := entries;
      this.tagMap := tagMap;
    }

    /** `getTag(tagType)`: looks the type up in the map. */
    function GetTag(t: TagType): (r: Option<Tag>)
      reads this
      requires Valid()
      ensures r == TagOf(entries, t)
    {
      IndexMapLast(Types(entries), Some(t));
      if Some(t) in tagMap then entries[tagMap[Some(t)]].tag else None
    }

    /** `readTags(rai)`: visits the entries in directory order, each once. Each tag's data is read through a
        stream over its window of the profile: the payload's own signature picks the type, and that type's reader
        decodes the rest with the entry size, cast to a Java int, as the length. A window shorter than four bytes
        and any exception a reader throws end the walk. */
    method ReadTags(d: seq<byte>) returns (r: Result<()>)
      requires Valid() && forall i :: 0 <= i < |entries| ==> 0 <= entries[i].offset && 0 <= entries[i].size
      modifies this
      ensures Valid() && |entries| == |old(entries)|
      ensures forall i :: 0 <= i < |entries| ==> entries[i].(tag := old(entries[i].tag)) == old(entries[i])
      ensures r.Ok? ==> forall i :: 0 <= i < |entries| ==> Decoded(d, old(entries[i]), entries[i])
      ensures forall i :: 0 <= i < |entries| && entries[i].tag != old(entries[i].tag) ==> NewTag(entries[i].tag)
    {
      ghost var start := entries;
      for i := 0 to |entries|
        invariant |entries| == |start| && Types(entries) == Types(start)
        invariant forall j :: 0 <= j < |entries| ==> entries[j].(tag := start[j].tag) == start[j]
        invariant forall j :: 0 <= j < i ==> Decoded(d, start[j], entries[j])
        invariant forall j :: i <= j < |entries| ==> entries[j] == start[j]
        invariant forall j :: 0 <= j < |entries| && entries[j].tag != start[j].tag ==> NewTag(entries[j].tag)
      {
        var e :- DecodeEntry(d, entries[i]);
        entries := entries[i := e];
        assert Types(entries) == Types(start);
      }
      return Ok(());
    }
  }

  /** One pass of the constructor's loop: the type looked up from the signature, then the offset and size. */
  method ReadEntry(input: ByteStream) returns (r: Result<Entry>)
    modifies input
    ensures r.Ok? <==> old(input.CanRead(12))
    ensures r.Ok? ==> r.value == EntryAt(input.data, old(input.pos)) && input.pos == old(input.pos) + 12
  {
    var signature :- input.ReadU32BE();
    var tagType := Create(signature);
    var offset :- input.ReadU32BE();
    var size :- input.ReadU32BE();
    return Ok(Entry(tagType, offset, size, None));
  }

  /** `new TagTable(in)`: a signed count, then that many (signature, offset, size) triples, 4 + 12 * count bytes
      in all; a negative count fails the array allocation. */
  method ReadTable(input: ByteStream) returns (r: Result<TagTable>)
    modifies input
    ensures r.Ok? <==> old(input.CanRead(4)) && 0 <= S32At(input.data, old(input.pos)) &&
                       old(input.CanRead(4 + 12 * S32At(input.data, input.pos)))
    ensures old(input.CanRead(4)) && S32At(input.data, old(input.pos)) < 0 ==> r == Err(NegativeArraySize)
    ensures r.Ok? ==> var p := old(input.pos); var n := S32At(input.data, p);
      fresh(r.value) && r.value.Valid() && r.value.tagCount == n && r.value.entries == DirectoryAt(input.data, p + 4, n) &&
      input.pos == p + 4 + 12 * n
  {
    var count :- input.ReadS32BE();
    if count < 0 {
      return Err(NegativeArraySize);
    }
    ghost var q := input.pos;
    var entries: seq<Entry> := [];
    var tagMap: map<Option<TagType>, nat> := map[];
    for i := 0 to count
      invariant input.pos == q + 12 * i
      invariant 0 <= q && q + 12 * i <= |input.data|
      invariant entries == DirectoryAt(input.data, q, i)
      invariant tagMap == IndexMap(Types(entries))
    {
      var entry :- ReadEntry(input);
      DirectoryAtSnoc(input.data, q, i);
      ghost var before := entries;
      entries := entries + [entry];
      assert Types(entries)[..i] == Types(before);
      tagMap := tagMap[entry.tagType := i];
    }
    var table := new TagTable(count, entries, tagMap);
    return Ok(table);
  }
}
