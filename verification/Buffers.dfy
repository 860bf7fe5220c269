/** Lists of buffers that are consumed from the front in place (src/util/buffer_utils.js). */
module Buffers {
  import opened Bytes

  /** All the bytes of a list of fragments. */
  function Flatten(parts: seq<Data>): Data {
    if parts == [] then [] else parts[0] + Flatten(parts[1..])
  }

  function Resize(d: Data, len: nat): Data {
    if len <= |d| then d[..len] else d + Zeros(len - |d|)
  }

  /** `Buffer.concat(buffers, len)` for several fragments, the one fragment itself otherwise. */
  function Joined(parts: seq<Data>, len: nat): Data {
    if |parts| > 1 then Resize(Flatten(parts), len)
    else if |parts| == 1 then parts[0]
    else []
  }

  /** The fragments taken for `len` bytes, and the fragments that stay. */
  function Extracted(parts: seq<Data>, len: nat): (seq<Data>, seq<Data>) {
    if len == 0 || parts == [] then ([], parts)
    else if len < |parts[0]| then ([parts[0][..len]], [parts[0][len..]] + parts[1..])
    else
      var (taken, rest) := Extracted(parts[1..], len - |parts[0]|);
      ([parts[0]] + taken, rest)
  }

  function ExtractJoined(parts: seq<Data>, len: nat): (Data, seq<Data>) {
    var (taken, rest) := Extracted(parts, len);
    (Joined(taken, len), rest)
  }

  lemma {:induction false} FlattenAppend(a: seq<Data>, b: seq<Data>)
    ensures Flatten(a + b) == Flatten(a) + Flatten(b)
  {
    if a == [] {
      assert a + b == b;
    } else {
      FlattenAppend(a[1..], b);
      assert (a + b)[1..] == a[1..] + b && (a + b)[0] == a[0];
      assert Flatten(a + b) == a[0] + Flatten(a[1..] + b);
      assert a[0] + (Flatten(a[1..]) + Flatten(b)) == (a[0] + Flatten(a[1..])) + Flatten(b);
    }
  }

  /** Extraction splits the bytes exactly at `len`; a short list is taken whole. */
  lemma {:induction false} ExtractedBytes(parts: seq<Data>, len: nat)
    ensures
      var whole := Flatten(parts);
      var (taken, rest) := Extracted(parts, len);
      if len <= |whole|
      then Flatten(taken) == whole[..len] && Flatten(rest) == whole[len..]
      else taken == parts && rest == []
  {
    if len == 0 || parts == [] {
    } else {
      var head, tail := parts[0], parts[1..];
      if len < |head| {
        assert Flatten([head[..len]]) == head[..len];
        assert ([head[len..]] + tail)[1..] == tail;
      } else {
        ExtractedBytes(tail, len - |head|);
        var (taken, rest) := Extracted(tail, len - |head|);
        assert ([head] + taken)[1..] == taken;
        assert [head] + tail == parts;
      }
    }
  }

  /** With enough bytes the result is the first `len` of them, however they were fragmented;
      a short list gives all it has, padded with zeros only when it had several fragments. */
  lemma ExtractJoinedBytes(parts: seq<Data>, len: nat)
    ensures
      var whole := Flatten(parts);
      var (data, rest) := ExtractJoined(parts, len);
      if len <= |whole|
      then data == whole[..len] && Flatten(rest) == whole[len..]
      else rest == [] && data == if |parts| > 1 then whole + Zeros(len - |whole|) else whole
  {
    ExtractedBytes(parts, len);
    var (taken, rest) := Extracted(parts, len);
    if |taken| == 1 {
      assert Flatten(taken) == taken[0];
    }
  }

  /** A known front is cut off, whatever the fragments. */
  lemma ExtractFront(parts: seq<Data>, front: Data, back: Data)
    requires Flatten(parts) == front + back
    ensures ExtractJoined(parts, |front|).0 == front && Flatten(ExtractJoined(parts, |front|).1) == back
  {
    ExtractJoinedBytes(parts, |front|);
    assert (front + back)[..|front|] == front && (front + back)[|front|..] == back;
  }

  /** The bytes extracted depend on the content alone exactly when enough bytes are there. */
  lemma FragmentationIndependent(whole: Data, len: nat)
    ensures
      (forall p, q: seq<Data> | Flatten(p) == whole && Flatten(q) == whole ::
         ExtractJoined(p, len).0 == ExtractJoined(q, len).0)
      <==> len <= |whole|
  {
    if len <= |whole| {
      forall p, q: seq<Data> | Flatten(p) == whole && Flatten(q) == whole
        ensures ExtractJoined(p, len).0 == ExtractJoined(q, len).0
      {
        ExtractJoinedBytes(p, len);
        ExtractJoinedBytes(q, len);
      }
    } else {
      var p, q := [whole], [whole, []];
      assert Flatten(p) == whole;
      assert q[1..] == [[]] && Flatten(q[1..]) == [];
      assert Flatten(q) == whole;
      ExtractJoinedBytes(p, len);
      ExtractJoinedBytes(q, len);
      assert |ExtractJoined(p, len).0| != |ExtractJoined(q, len).0|;
    }
  }

  /** A list of fragments; `parts` is replaced as bytes are consumed. */
  class BufferList {
    var parts: seq<Data>

    constructor (parts: seq<Data>)
      ensures this.parts == parts
    {
      this.parts := parts;
    }

    method Extract(len: nat) returns (taken: seq<Data>)
      modifies this
      ensures (taken, parts) == Extracted(old(parts), len)
    {
      taken := [];
      var pos := 0;
      while pos < len && parts != []
        invariant pos <= len
        invariant
          var (more, rest) := Extracted(parts, len - pos);
          Extracted(old(parts), len).0 == taken + more && Extracted(old(parts), len).1 == rest
        decreases |parts|, len - pos
      {
        ghost var before, done := parts, taken;
        ghost var (more, rest) := Extracted(before, len - pos);
        var b := parts[0];
        var n := if |b| <= len - pos then |b| else len - pos;
        if n < |b| {
          parts := [b[n..]] + parts[1..];
          taken := taken + [b[..n]];
          assert done + more == taken;
        } else {
          parts := parts[1..];
          taken := taken + [b];
          assert done + more == taken + Extracted(parts, len - pos - n).0;
        }
        pos := pos + n;
      }
      assert Extracted(parts, len - pos) == ([], parts);
      assert taken + [] == taken;
    }

    method ExtractJoin(len: nat) returns (data: Data)
      modifies this
      ensures (data, parts) == ExtractJoined(old(parts), len)
    {
      var taken := Extract(len);
      if |taken| > 1 {
        data := Resize(Flatten(taken), len);
      } else if |taken| == 1 {
        data := taken[0];
      } else {
        data := [];
      }
    }
  }
}
