/** Blobs made of blocks: staging blocks, and committing lists that mix staged blocks with blocks of the
    blob as it is (src/sdk/blob_translator.js). */
module BlobTranslator {
  import opened Wrappers

  datatype Range = Range(start: nat, end: nat)

  /** An entry of the stored list of committed blocks. Ranges exclude their end. */
  datatype Entry = Entry(id: string, num: nat, size: nat, range: Range)

  /** A staged block as the listing shows it. */
  datatype Item = Item(id: string, size: nat)

  datatype Wanted = Committed | Uncommitted | Latest

  /** One entry of the list to commit; its part number is its place in the list. */
  datatype Ask = Ask(id: string, wanted: Wanted)

  datatype Known = Staged(size: nat) | InBlob(size: nat, range: Range)

  /** Where the bytes of a part are copied from. */
  datatype Source = FromStaged(id: string) | FromBlob(range: Range)

  datatype Part = Part(entry: Entry, source: Source)

  datatype BlobError = UnknownBlock | InvalidBlobOrBlock

  // ------------------------------------------------- processing a list

  function LastEntry(committed: seq<Entry>, id: string): Option<Entry> {
    if committed == [] then None
    else if committed[|committed| - 1].id == id then Some(committed[|committed| - 1])
    else LastEntry(committed[..|committed| - 1], id)
  }

  function LastItem(uncommitted: seq<Item>, id: string): Option<Item> {
    if uncommitted == [] then None
    else if uncommitted[|uncommitted| - 1].id == id then Some(uncommitted[|uncommitted| - 1])
    else LastItem(uncommitted[..|uncommitted| - 1], id)
  }

  /** A staged block hides a committed one of its id. */
  function Find(id: string, committed: seq<Entry>, uncommitted: seq<Item>): Option<Known> {
    var item, entry := LastItem(uncommitted, id), LastEntry(committed, id);
    if item.Some? then Some(Staged(item.value.size))
    else if entry.Some? then Some(InBlob(entry.value.size, entry.value.range))
    else None
  }

  predicate TypeFits(wanted: Wanted, known: Known) {
    match wanted
    case Latest => true
    case Committed => known.InBlob?
    case Uncommitted => known.Staged?
  }

  function End(parts: seq<Part>): nat {
    if parts == [] then 0 else parts[|parts| - 1].entry.range.end
  }

  function MakePart(a: Ask, known: Known, num: nat, start: nat): Part {
    Part(Entry(a.id, num, known.size, Range(start, start + known.size)),
         if known.Staged? then FromStaged(a.id) else FromBlob(known.range))
  }

  function Process(asks: seq<Ask>, committed: seq<Entry>, uncommitted: seq<Item>): Result<seq<Part>, BlobError> {
    if asks == [] then Ok([])
    else
      var last := asks[|asks| - 1];
      match Process(asks[..|asks| - 1], committed, uncommitted)
      case Err(e) => Err(e)
      case Ok(parts) =>
        match Find(last.id, committed, uncommitted)
        case None => Err(UnknownBlock)
        case Some(known) =>
          if TypeFits(last.wanted, known) then Ok(parts + [MakePart(last, known, |asks|, End(parts))])
          else Err(InvalidBlobOrBlock)
  }

  /** The id is known and the declared type is the one it has, or 'latest'. */
  predicate Acceptable(a: Ask, committed: seq<Entry>, uncommitted: seq<Item>) {
    var known := Find(a.id, committed, uncommitted);
    known.Some? && TypeFits(a.wanted, known.value)
  }

  ghost predicate PartOk(asks: seq<Ask>, committed: seq<Entry>, uncommitted: seq<Item>, parts: seq<Part>, i: nat)
    requires i < |asks| == |parts|
  {
    var known := Find(asks[i].id, committed, uncommitted);
    && known.Some?
    && parts[i].entry.id == asks[i].id && parts[i].entry.num == i + 1 && parts[i].entry.size == known.value.size
    && parts[i].source == (if known.value.Staged? then FromStaged(asks[i].id) else FromBlob(known.value.range))
  }

  function TotalSize(parts: seq<Part>): nat {
    if parts == [] then 0 else TotalSize(parts[..|parts| - 1]) + parts[|parts| - 1].entry.size
  }

  /** The range starts where the one before it ends, and is as long as the block. */
  predicate TileAt(parts: seq<Part>, i: nat)
    requires i < |parts|
  {
    && parts[i].entry.range.start == (if i == 0 then 0 else parts[i - 1].entry.range.end)
    && parts[i].entry.range.end == parts[i].entry.range.start + parts[i].entry.size
  }

  /** The ranges cover [0, total size), one after the other. */
  ghost predicate Tiles(parts: seq<Part>) {
    End(parts) == TotalSize(parts) && forall i :: 0 <= i < |parts| ==> TileAt(parts, i)
  }

  /** A list is processed exactly when every block of it is acceptable; otherwise the first block that is
      not decides the error. */
  lemma {:induction false} ProcessSucceeds(asks: seq<Ask>, committed: seq<Entry>, uncommitted: seq<Item>)
    ensures Process(asks, committed, uncommitted).Ok? <==>
            forall i :: 0 <= i < |asks| ==> Acceptable(asks[i], committed, uncommitted)
    ensures Process(asks, committed, uncommitted).Err? ==>
            exists i :: 0 <= i < |asks| && !Acceptable(asks[i], committed, uncommitted)
              && (forall j :: 0 <= j < i ==> Acceptable(asks[j], committed, uncommitted))
              && Process(asks, committed, uncommitted).error.UnknownBlock? ==
                   Find(asks[i].id, committed, uncommitted).None?
  {
    if asks == [] {
    } else {
      var init := asks[..|asks| - 1];
      ProcessSucceeds(init, committed, uncommitted);
      assert forall i :: 0 <= i < |init| ==> init[i] == asks[i];
      if Process(init, committed, uncommitted).Err? {
        var i :| 0 <= i < |init| && !Acceptable(init[i], committed, uncommitted)
          && (forall j :: 0 <= j < i ==> Acceptable(init[j], committed, uncommitted))
          && Process(init, committed, uncommitted).error.UnknownBlock? ==
               Find(init[i].id, committed, uncommitted).None?;
        assert !Acceptable(asks[i], committed, uncommitted);
      } else {
        assert forall j :: 0 <= j < |init| ==> Acceptable(init[j], committed, uncommitted);
        assert Acceptable(asks[|init|], committed, uncommitted) <==> Process(asks, committed, uncommitted).Ok?;
      }
    }
  }

  /** The parts of a processed list are its blocks in order, each resolved to the staged block or else to
      the committed one, and their ranges tile the new blob. */
  lemma {:induction false} ProcessTiles(asks: seq<Ask>, committed: seq<Entry>, uncommitted: seq<Item>)
    requires Process(asks, committed, uncommitted).Ok?
    ensures
      var parts := Process(asks, committed, uncommitted).value;
      && |parts| == |asks| && Tiles(parts)
      && forall i :: 0 <= i < |asks| ==> PartOk(asks, committed, uncommitted, parts, i)
  {
    if asks == [] {
    } else {
      var init := asks[..|asks| - 1];
      ProcessTiles(init, committed, uncommitted);
      var parts, front := Process(asks, committed, uncommitted).value, Process(init, committed, uncommitted).value;
      assert parts[..|parts| - 1] == front;
      forall i | 0 <= i < |asks| ensures PartOk(asks, committed, uncommitted, parts, i) && TileAt(parts, i) {
        if i < |init| {
          assert PartOk(init, committed, uncommitted, front, i) && TileAt(front, i);
        }
      }
    }
  }

  /** An entry of type 'committed' is accepted exactly if the blob has its id and nothing is staged under it. */
  lemma CommittedNeedsUnstaged(id: string, committed: seq<Entry>, uncommitted: seq<Item>)
    ensures Acceptable(Ask(id, Committed), committed, uncommitted)
       <==> LastEntry(committed, id).Some? && LastItem(uncommitted, id).None?
  {
  }

  /** A committed block that can be committed again until a block is staged under its id. */
  lemma StagedHidesCommitted()
    ensures
      var asks, committed := [Ask("x", Committed)], [Entry("x", 1, 3, Range(0, 3))];
      && Process(asks, committed, []).Ok?
      && Process(asks, committed, [Item("x", 5)]) == Err(InvalidBlobOrBlock)
  {
    assert [Ask("x", Committed)][..0] == [];
  }

  ghost predicate Maps(byId: map<string, Known>, committed: seq<Entry>, uncommitted: seq<Item>) {
    forall id: string :: Find(id, committed, uncommitted) == if id in byId then Some(byId[id]) else None
  }

  lemma EntryAdded(byId: map<string, Known>, committed: seq<Entry>, e: Entry)
    requires Maps(byId, committed, [])
    ensures Maps(byId[e.id := InBlob(e.size, e.range)], committed + [e], [])
  {
    assert (committed + [e])[..|committed|] == committed;
    assert forall id: string :: Find(id, committed, []) == if id in byId then Some(byId[id]) else None;
  }

  lemma ItemAdded(byId: map<string, Known>, committed: seq<Entry>, uncommitted: seq<Item>, u: Item)
    requires Maps(byId, committed, uncommitted)
    ensures Maps(byId[u.id := Staged(u.size)], committed, uncommitted + [u])
  {
    assert (uncommitted + [u])[..|uncommitted|] == uncommitted;
    assert forall id: string :: Find(id, committed, uncommitted) == if id in byId then Some(byId[id]) else None;
  }

  method BlocksById(committed: seq<Entry>, uncommitted: seq<Item>) returns (byId: map<string, Known>)
    ensures Maps(byId, committed, uncommitted)
  {
    byId := map[];
    for i := 0 to |committed|
      invariant Maps(byId, committed[..i], [])
    {
      EntryAdded(byId, committed[..i], committed[i]);
      assert committed[..i + 1] == committed[..i] + [committed[i]];
      byId := byId[committed[i].id := InBlob(committed[i].size, committed[i].range)];
    }
    assert committed[..|committed|] == committed;
    for i := 0 to |uncommitted|
      invariant Maps(byId, committed, uncommitted[..i])
    {
      ItemAdded(byId, committed, uncommitted[..i], uncommitted[i]);
      assert uncommitted[..i + 1] == uncommitted[..i] + [uncommitted[i]];
      byId := byId[uncommitted[i].id := Staged(uncommitted[i].size)];
    }
    assert uncommitted[..|uncommitted|] == uncommitted;
  }

  lemma {:induction false} ErrorStays(asks: seq<Ask>, i: nat, committed: seq<Entry>, uncommitted: seq<Item>)
    requires i <= |asks| && Process(asks[..i], committed, uncommitted).Err?
    ensures Process(asks, committed, uncommitted) == Process(asks[..i], committed, uncommitted)
    decreases |asks| - i
  {
    if i < |asks| {
      assert asks[..i + 1][..i] == asks[..i];
      ErrorStays(asks, i + 1, committed, uncommitted);
    } else {
      assert asks[..i] == asks;
    }
  }

  method ProcessBlockList(asks: seq<Ask>, committed: seq<Entry>, uncommitted: seq<Item>)
    returns (r: Result<seq<Part>, BlobError>)
    ensures r == Process(asks, committed, uncommitted)
  {
    var byId := BlocksById(committed, uncommitted);
    var parts: seq<Part> := [];
    var start := 0;
    for i := 0 to |asks|
      invariant Process(asks[..i], committed, uncommitted) == Ok(parts) && start == End(parts)
    {
      assert asks[..i + 1][..i] == asks[..i];
      assert Find(asks[i].id, committed, uncommitted) == if asks[i].id in byId then Some(byId[asks[i].id]) else None;
      if asks[i].id !in byId {
        ErrorStays(asks, i + 1, committed, uncommitted);
        return Err(UnknownBlock);
      }
      var known := byId[asks[i].id];
      if !TypeFits(asks[i].wanted, known) {
        ErrorStays(asks, i + 1, committed, uncommitted);
        return Err(InvalidBlobOrBlock);
      }
      parts := parts + [MakePart(asks[i], known, i + 1, start)];
      start := start + known.size;
    }
    assert asks[..|asks|] == asks;
    r := Ok(parts);
  }
}
