/** Any sequence of block uploads and commits of one blob, against a plain list of blocks
    (src/sdk/blob_translator.js). */
module BlobStore {
  import opened Wrappers
  import opened Bytes
  import opened BlobTranslator

  /** The stored blob, its stored list of committed blocks, and its staged blocks. */
  datatype Blob = Blob(content: Data, committed: seq<Entry>, staged: map<string, Data>)

  /** A complete listing of the staged blocks, in any order. */
  ghost predicate IsListing(items: seq<Item>, staged: map<string, Data>) {
    && (forall i :: 0 <= i < |items| ==> items[i].id in staged && items[i].size == |staged[items[i].id]|)
    && (forall id :: id in staged ==> Listed(items, id))
  }

  ghost predicate Listed(items: seq<Item>, id: string) {
    exists i :: 0 <= i < |items| && items[i].id == id
  }

  function Upload(b: Blob, id: string, data: Data): Blob { b.(staged := b.staged[id := data]) }

  /** The bytes copied for one part, from a staged block or from the blob as it was. */
  function Copied(b: Blob, source: Source): Data {
    match source
    case FromStaged(id) => if id in b.staged then b.staged[id] else []
    case FromBlob(range) => if range.start <= range.end <= |b.content| then b.content[range.start..range.end] else []
  }

  function Assembled(b: Blob, parts: seq<Part>): Data {
    if parts == [] then [] else Assembled(b, parts[..|parts| - 1]) + Copied(b, parts[|parts| - 1].source)
  }

  function Entries(parts: seq<Part>): seq<Entry> {
    if parts == [] then [] else Entries(parts[..|parts| - 1]) + [parts[|parts| - 1].entry]
  }

  function Ids(items: seq<Item>): set<string> { set i | 0 <= i < |items| :: items[i].id }

  /** Commit a list; one that is rejected changes nothing. */
  function Commit(b: Blob, asks: seq<Ask>, items: seq<Item>): Blob {
    match Process(asks, b.committed, items)
    case Err(_) => b
    case Ok(parts) => Blob(Assembled(b, parts), Entries(parts), b.staged - Ids(items))
  }

  // --------------------------------------------------- the list of blocks

  datatype Block = Block(id: string, data: Data)

  /** What a client sees: the blob is a list of blocks, besides the staged ones. */
  datatype BlockList = BlockList(blocks: seq<Block>, staged: map<string, Data>)

  function LastBlock(blocks: seq<Block>, id: string): Option<Data> {
    if blocks == [] then None
    else if blocks[|blocks| - 1].id == id then Some(blocks[|blocks| - 1].data)
    else LastBlock(blocks[..|blocks| - 1], id)
  }

  predicate Has(l: BlockList, a: Ask) {
    match a.wanted
    case Uncommitted => a.id in l.staged
    case Committed => a.id !in l.staged && LastBlock(l.blocks, a.id).Some?
    case Latest => a.id in l.staged || LastBlock(l.blocks, a.id).Some?
  }

  function DataOf(l: BlockList, id: string): Data {
    if id in l.staged then l.staged[id]
    else if LastBlock(l.blocks, id).Some? then LastBlock(l.blocks, id).value
    else []
  }

  function Chosen(l: BlockList, asks: seq<Ask>): seq<Block> {
    if asks == [] then []
    else Chosen(l, asks[..|asks| - 1]) + [Block(asks[|asks| - 1].id, DataOf(l, asks[|asks| - 1].id))]
  }

  predicate HasAll(l: BlockList, asks: seq<Ask>) { forall i :: 0 <= i < |asks| ==> Has(l, asks[i]) }

  function CommitList(l: BlockList, asks: seq<Ask>): BlockList {
    if HasAll(l, asks) then BlockList(Chosen(l, asks), map[]) else l
  }

  function Concat(blocks: seq<Block>): Data {
    if blocks == [] then [] else Concat(blocks[..|blocks| - 1]) + blocks[|blocks| - 1].data
  }

  // ------------------------------------------------------- refinement

  /** The entry is of the block, and its range slices exactly the block's data out of the blob. */
  ghost predicate EntryOk(content: Data, e: Entry, blocks: seq<Block>, i: nat)
    requires i < |blocks|
  {
    && e.id == blocks[i].id && e.num == i + 1 && e.size == |blocks[i].data|
    && e.range.start <= e.range.end <= |content| && e.range.end == e.range.start + e.size
    && content[e.range.start..e.range.end] == blocks[i].data
  }

  ghost predicate Agrees(b: Blob, l: BlockList) {
    && b.staged == l.staged
    && b.content == Concat(l.blocks)
    && |b.committed| == |l.blocks|
    && forall i :: 0 <= i < |l.blocks| ==> EntryOk(b.content, b.committed[i], l.blocks, i)
  }

  lemma {:induction false} StagedFound(items: seq<Item>, staged: map<string, Data>, id: string)
    requires forall i :: 0 <= i < |items| ==> items[i].id in staged && items[i].size == |staged[items[i].id]|
    ensures LastItem(items, id).Some? <==> Listed(items, id)
    ensures LastItem(items, id).Some? ==> id in staged && LastItem(items, id).value == Item(id, |staged[id]|)
  {
    if items == [] {
    } else {
      var init := items[..|items| - 1];
      assert forall i :: 0 <= i < |init| ==> init[i] == items[i];
      StagedFound(init, staged, id);
      if items[|items| - 1].id != id && Listed(items, id) {
        var i :| 0 <= i < |items| && items[i].id == id;
        assert init[i].id == id;
      }
    }
  }

  /** The entry found for an id gives the data of the block found for it. */
  lemma {:induction false} EntryFound(content: Data, committed: seq<Entry>, blocks: seq<Block>, id: string)
    requires |committed| == |blocks| && forall i :: 0 <= i < |blocks| ==> EntryOk(content, committed[i], blocks, i)
    ensures LastEntry(committed, id).Some? <==> LastBlock(blocks, id).Some?
    ensures LastEntry(committed, id).Some? ==>
              var e := LastEntry(committed, id).value;
              && e.range.start <= e.range.end <= |content| && e.size == |LastBlock(blocks, id).value|
              && content[e.range.start..e.range.end] == LastBlock(blocks, id).value
  {
    if blocks == [] {
    } else {
      var n := |blocks| - 1;
      assert EntryOk(content, committed[n], blocks, n);
      forall i | 0 <= i < n ensures EntryOk(content, committed[..n][i], blocks[..n], i) {
        assert EntryOk(content, committed[i], blocks, i);
      }
      EntryFound(content, committed[..n], blocks[..n], id);
    }
  }

  /** Blob and list agree on which blocks can be committed, and on their data. */
  lemma SameBlocks(b: Blob, l: BlockList, items: seq<Item>, a: Ask)
    requires Agrees(b, l) && IsListing(items, b.staged)
    ensures Acceptable(a, b.committed, items) <==> Has(l, a)
    ensures Has(l, a) ==>
              var known := Find(a.id, b.committed, items).value;
              && known.size == |DataOf(l, a.id)|
              && Copied(b, if known.Staged? then FromStaged(a.id) else FromBlob(known.range)) == DataOf(l, a.id)
  {
    StagedFound(items, b.staged, a.id);
    EntryFound(b.content, b.committed, l.blocks, a.id);
  }

  ghost predicate PartsAgree(b: Blob, l: BlockList, asks: seq<Ask>, parts: seq<Part>) {
    && |parts| == |Chosen(l, asks)| == |Entries(parts)| == |asks|
    && Assembled(b, parts) == Concat(Chosen(l, asks))
    && End(parts) == |Concat(Chosen(l, asks))|
    && forall i :: 0 <= i < |asks| ==> EntryOk(Concat(Chosen(l, asks)), Entries(parts)[i], Chosen(l, asks), i)
  }

  lemma EntryOkGrows(content: Data, more: Data, e: Entry, blocks: seq<Block>, last: Block, i: nat)
    requires i < |blocks| && EntryOk(content, e, blocks, i)
    ensures EntryOk(content + more, e, blocks + [last], i)
  {
    assert (content + more)[e.range.start..e.range.end] == content[e.range.start..e.range.end];
  }

  /** One more block at the end. */
  lemma PartsAgreeNext(b: Blob, l: BlockList, asks: seq<Ask>, parts: seq<Part>, p: Part)
    requires asks != [] && PartsAgree(b, l, asks[..|asks| - 1], parts)
    requires p.entry.id == asks[|asks| - 1].id && p.entry.num == |asks|
    requires p.entry.range.start == End(parts) && p.entry.range.end == p.entry.range.start + p.entry.size
    requires p.entry.size == |DataOf(l, p.entry.id)| && Copied(b, p.source) == DataOf(l, p.entry.id)
    ensures PartsAgree(b, l, asks, parts + [p])
  {
    var front, last := Chosen(l, asks[..|asks| - 1]), Block(p.entry.id, DataOf(l, p.entry.id));
    var all := parts + [p];
    assert all[..|all| - 1] == parts;
    assert Chosen(l, asks) == front + [last];
    assert (front + [last])[..|front|] == front;
    assert Concat(front + [last]) == Concat(front) + last.data;
    forall i | 0 <= i < |asks| ensures EntryOk(Concat(front + [last]), Entries(all)[i], front + [last], i) {
      if i < |front| {
        EntryOkGrows(Concat(front), last.data, Entries(parts)[i], front, last, i);
      }
    }
  }

  lemma {:induction false} ProcessAgrees(b: Blob, l: BlockList, asks: seq<Ask>, items: seq<Item>)
    requires Agrees(b, l) && IsListing(items, b.staged) && HasAll(l, asks)
    ensures Process(asks, b.committed, items).Ok?
    ensures PartsAgree(b, l, asks, Process(asks, b.committed, items).value)
  {
    if asks == [] {
    } else {
      var init, last := asks[..|asks| - 1], asks[|asks| - 1];
      assert forall i :: 0 <= i < |init| ==> init[i] == asks[i];
      ProcessAgrees(b, l, init, items);
      SameBlocks(b, l, items, last);
      var parts := Process(init, b.committed, items).value;
      PartsAgreeNext(b, l, asks, parts, MakePart(last, Find(last.id, b.committed, items).value, |asks|, End(parts)));
    }
  }

  /** Committing on the blob is committing on the list of blocks. */
  lemma CommitAgrees(b: Blob, l: BlockList, asks: seq<Ask>, items: seq<Item>)
    requires Agrees(b, l) && IsListing(items, b.staged)
    ensures Agrees(Commit(b, asks, items), CommitList(l, asks))
    ensures Process(asks, b.committed, items).Ok? <==> HasAll(l, asks)
    ensures !HasAll(l, asks) ==> Commit(b, asks, items) == b
  {
    ProcessSucceeds(asks, b.committed, items);
    forall i | 0 <= i < |asks| ensures Acceptable(asks[i], b.committed, items) <==> Has(l, asks[i]) {
      SameBlocks(b, l, items, asks[i]);
    }
    if HasAll(l, asks) {
      ProcessAgrees(b, l, asks, items);
      assert b.staged - Ids(items) == map[] by {
        forall id | id in b.staged ensures id in Ids(items) {
          assert Listed(items, id);
        }
      }
    }
  }

  datatype Op = UploadOp(id: string, data: Data) | CommitOp(asks: seq<Ask>, items: seq<Item>)

  /** Listings are complete when they are taken. */
  ghost predicate Complete(b: Blob, ops: seq<Op>)
    decreases |ops|
  {
    ops == [] || ((ops[0].CommitOp? ==> IsListing(ops[0].items, b.staged)) && Complete(Apply(b, ops[0]), ops[1..]))
  }

  function Apply(b: Blob, op: Op): Blob {
    match op
    case UploadOp(id, data) => Upload(b, id, data)
    case CommitOp(asks, items) => Commit(b, asks, items)
  }

  function ApplyList(l: BlockList, op: Op): BlockList {
    match op
    case UploadOp(id, data) => l.(staged := l.staged[id := data])
    case CommitOp(asks, _) => CommitList(l, asks)
  }

  function Run(b: Blob, ops: seq<Op>): Blob
    decreases |ops|
  {
    if ops == [] then b else Run(Apply(b, ops[0]), ops[1..])
  }

  function RunList(l: BlockList, ops: seq<Op>): BlockList
    decreases |ops|
  {
    if ops == [] then l else RunList(ApplyList(l, ops[0]), ops[1..])
  }

  /** Over any sequence of uploads and commits the blob is the concatenation of its list of blocks, and
      every committed entry slices exactly its block out of it. */
  lemma {:induction false} RunAgrees(b: Blob, l: BlockList, ops: seq<Op>)
    requires Agrees(b, l) && Complete(b, ops)
    ensures Agrees(Run(b, ops), RunList(l, ops))
    decreases |ops|
  {
    if ops == [] {
    } else {
      if ops[0].CommitOp? {
        CommitAgrees(b, l, ops[0].asks, ops[0].items);
      }
      RunAgrees(Apply(b, ops[0]), ApplyList(l, ops[0]), ops[1..]);
    }
  }

  /** Blocks that repeat an id repeat its data. */
  ghost predicate RepeatsAlike(blocks: seq<Block>) {
    forall i, j :: 0 <= i < |blocks| && 0 <= j < |blocks| && blocks[i].id == blocks[j].id ==>
      blocks[i].data == blocks[j].data
  }

  lemma {:induction false} ChosenData(l: BlockList, asks: seq<Ask>)
    ensures |Chosen(l, asks)| == |asks|
    ensures forall i :: 0 <= i < |asks| ==> Chosen(l, asks)[i] == Block(asks[i].id, DataOf(l, asks[i].id))
  {
    if asks == [] {
    } else {
      ChosenData(l, asks[..|asks| - 1]);
    }
  }

  /** So an id of the blob stands for one block, however often the lists repeat it. */
  lemma {:induction false} RunRepeatsAlike(l: BlockList, ops: seq<Op>)
    requires RepeatsAlike(l.blocks)
    ensures RepeatsAlike(RunList(l, ops).blocks)
    decreases |ops|
  {
    if ops == [] {
    } else {
      if ops[0].CommitOp? {
        ChosenData(l, ops[0].asks);
      }
      RunRepeatsAlike(ApplyList(l, ops[0]), ops[1..]);
    }
  }

  /** Whatever is done to a new blob, it is what the list of its blocks says, and committed entries of the
      same id slice the same bytes out of it. */
  lemma NewBlobAgrees(ops: seq<Op>)
    requires Complete(Blob([], [], map[]), ops)
    ensures
      var b := Run(Blob([], [], map[]), ops);
      && Agrees(b, RunList(BlockList([], map[]), ops))
      && forall i, j :: 0 <= i < |b.committed| && 0 <= j < |b.committed| && b.committed[i].id == b.committed[j].id ==>
           Copied(b, FromBlob(b.committed[i].range)) == Copied(b, FromBlob(b.committed[j].range))
  {
    var b, l := Run(Blob([], [], map[]), ops), RunList(BlockList([], map[]), ops);
    RunAgrees(Blob([], [], map[]), BlockList([], map[]), ops);
    RunRepeatsAlike(BlockList([], map[]), ops);
    forall i, j | 0 <= i < |b.committed| && 0 <= j < |b.committed| && b.committed[i].id == b.committed[j].id
      ensures Copied(b, FromBlob(b.committed[i].range)) == Copied(b, FromBlob(b.committed[j].range))
    {
      assert EntryOk(b.content, b.committed[i], l.blocks, i) && EntryOk(b.content, b.committed[j], l.blocks, j);
    }
  }

  // ------------------------------------------------------- the object

  lemma {:induction false} AssembledFront(b: Blob, parts: seq<Part>, n: nat)
    requires n < |parts|
    ensures Assembled(b, parts[..n + 1]) == Assembled(b, parts[..n]) + Copied(b, parts[n].source)
  {
    assert parts[..n + 1][..n] == parts[..n];
  }

  class StoredBlob {
    var content: Data
    var committed: seq<Entry>
    var staged: map<string, Data>

    ghost function View(): Blob
      reads this
    {
      Blob(content, committed, staged)
    }

    constructor ()
      ensures View() == Blob([], [], map[])
    {
      content, committed, staged := [], [], map[];
    }

    method UploadBlock(id: string, data: Data)
      modifies this`staged
      ensures View() == Upload(old(View()), id, data)
    {
      staged := staged[id := data];
    }

    method UncommittedList() returns (items: seq<Item>)
      ensures IsListing(items, staged)
    {
      items := [];
      var todo := staged.Keys;
      while todo != {}
        invariant todo <= staged.Keys
        invariant forall i :: 0 <= i < |items| ==> items[i].id in staged && items[i].size == |staged[items[i].id]|
        invariant forall id :: id in staged ==> id in todo || Listed(items, id)
        decreases todo
      {
        var id :| id in todo;
        ghost var before := items;
        items := items + [Item(id, |staged[id]|)];
        todo := todo - {id};
        assert items[|before|].id == id;
        forall k | Listed(before, k) ensures Listed(items, k) {
          var i :| 0 <= i < |before| && before[i].id == k;
          assert items[i].id == k;
        }
      }
    }

    ghost predicate AllUploaded(uploaded: map<nat, Data>, parts: seq<Part>)
      reads this
    {
      forall i :: 0 <= i < |parts| ==> Uploaded(uploaded, parts[i])
    }

    ghost predicate Uploaded(uploaded: map<nat, Data>, p: Part)
      reads this
    {
      p.entry.num in uploaded && uploaded[p.entry.num] == Copied(View(), p.source)
    }

    /** Copy every part, in whatever order they get done. */
    method UploadParts(parts: seq<Part>) returns (uploaded: map<nat, Data>)
      requires forall i :: 0 <= i < |parts| ==> parts[i].entry.num == i + 1
      ensures AllUploaded(uploaded, parts)
    {
      uploaded := map[];
      var todo := set p | p in parts;
      while todo != {}
        invariant forall p :: p in todo ==> p in parts
        invariant forall i :: 0 <= i < |parts| ==> parts[i] in todo || Uploaded(uploaded, parts[i])
        decreases todo
      {
        var p :| p in todo;
        var data: Data := [];
        match p.source {
          case FromStaged(id) =>
            if id in staged {
              data := staged[id];
            }
          case FromBlob(range) =>
            if range.start <= range.end <= |content| {
              data := content[range.start..range.end];
            }
        }
        uploaded := uploaded[p.entry.num := data];
        todo := todo - {p};
      }
    }

    /** The parts in the order of their numbers are the new blob. */
    method CompleteUpload(uploaded: map<nat, Data>, parts: seq<Part>) returns (data: Data)
      requires forall i :: 0 <= i < |parts| ==> parts[i].entry.num == i + 1
      requires AllUploaded(uploaded, parts)
      ensures data == Assembled(View(), parts)
    {
      data := [];
      for i := 0 to |parts|
        invariant data == Assembled(View(), parts[..i])
      {
        AssembledFront(View(), parts, i);
        assert Uploaded(uploaded, parts[i]);
        data := data + uploaded[i + 1];
      }
      assert parts[..|parts|] == parts;
    }

    method WriteCommittedList(parts: seq<Part>)
      modifies this`committed
      ensures committed == Entries(parts)
    {
      var entries: seq<Entry> := [];
      for i := 0 to |parts|
        invariant entries == Entries(parts[..i])
      {
        assert parts[..i + 1][..i] == parts[..i];
        entries := entries + [parts[i].entry];
      }
      assert parts[..|parts|] == parts;
      committed := entries;
    }

    /** `items` is the listing that the commit was based on. */
    method CommitBlockList(asks: seq<Ask>) returns (r: Result<(), BlobError>, ghost items: seq<Item>)
      modifies this
      ensures IsListing(items, old(staged)) && View() == Commit(old(View()), asks, items)
      ensures match Process(asks, old(committed), items)
              case Ok(_) => r == Ok(())
              case Err(e) => r == Err(e)
      ensures forall l :: Agrees(old(View()), l) ==> Agrees(View(), CommitList(l, asks)) && (r.Ok? <==> HasAll(l, asks))
    {
      var listed := UncommittedList();
      items := listed;
      forall l | Agrees(View(), l)
        ensures Agrees(Commit(View(), asks, listed), CommitList(l, asks))
        ensures Process(asks, committed, listed).Ok? <==> HasAll(l, asks)
      {
        CommitAgrees(View(), l, asks, listed);
      }
      var processed := ProcessBlockList(asks, committed, listed);
      if processed.Err? {
        return Err(processed.error), items;
      }
      var parts := processed.value;
      ProcessTiles(asks, committed, listed);
      forall i | 0 <= i < |parts| ensures parts[i].entry.num == i + 1 {
        assert PartOk(asks, committed, listed, parts, i);
      }
      var uploaded := UploadParts(parts);
      var data := CompleteUpload(uploaded, parts);
      WriteCommittedList(parts);
      content := data;
      staged := staged - Ids(listed);
      r := Ok(());
    }
  }
}
