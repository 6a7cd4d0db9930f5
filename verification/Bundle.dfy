/** `wire::forEachMessage`: the length-prefixed bundle walker. */
module Bundle {
  import opened Bytes

  const MESSAGE_BUNDLE: byte := 2
  const MESSAGE_BUNDLE_SIGNED: byte := 30
  const TAG_SIZE := 32

  /** A member length has to fit the 16-bit prefix. */
  ghost predicate Framable(members: seq<Bytes>) {
    forall k :: 0 <= k < |members| ==> |members[k]| < 0x1_0000
  }

  function FrameOne(m: Bytes): Bytes {
    LittleEndian(|m|, 2) + m
  }

  /** The framing of a member list. */
  function Frame(members: seq<Bytes>): Bytes {
    if members == [] then [] else FrameOne(members[0]) + Frame(members[1..])
  }

  datatype Walked = Walked(delivered: seq<Bytes>, complete: bool)

  /** A bundle body starts with one whole framed member. */
  predicate HasMember(body: Bytes) {
    |body| >= 2 && 2 + FromLittleEndian(body[..2]) <= |body|
  }

  function Walk(body: Bytes): Walked
    decreases |body|
  {
    if body == [] then Walked([], true)
    else if !HasMember(body) then Walked([], false)
    else
      var n := FromLittleEndian(body[..2]);
      var rest := Walk(body[2 + n..]);
      Walked([body[2..2 + n]] + rest.delivered, rest.complete)
  }

  /** What a whole datagram yields. */
  function Deliver(data: Bytes): Walked {
    if data == [] then Walked([], false)
    else if data[0] == MESSAGE_BUNDLE_SIGNED then
      if |data| <= TAG_SIZE + 1 then Walked([], false) else Walk(data[1..|data| - TAG_SIZE])
    else if data[0] == MESSAGE_BUNDLE then Walk(data[1..])
    else Walked([data], true)
  }

  lemma LengthPrefix(n: nat)
    requires n < 0x1_0000
    ensures FromLittleEndian(LittleEndian(n, 2)) == n
  {
    assert Pow256(2) == 256 * Pow256(1);
    LittleEndianRoundTrip(n, 2);
  }

  lemma ThreeParts(a: Bytes, m: Bytes, rest: Bytes)
    requires |a| == 2
    ensures var all := a + (m + rest);
            all[..2] == a && all[2..2 + |m|] == m && all[2 + |m|..] == rest
  {
  }

  lemma PrefixReads(m: Bytes, rest: Bytes)
    requires |m| < 0x1_0000
    ensures var all := LittleEndian(|m|, 2) + (m + rest);
            HasMember(all) && FromLittleEndian(all[..2]) == |m|
            && all[2..2 + |m|] == m && all[2 + |m|..] == rest
  {
    LengthPrefix(|m|);
    ThreeParts(LittleEndian(|m|, 2), m, rest);
  }

  lemma WalkMember(m: Bytes, rest: Bytes)
    requires |m| < 0x1_0000
    ensures Walk(LittleEndian(|m|, 2) + (m + rest)) == Walked([m] + Walk(rest).delivered, Walk(rest).complete)
  {
    PrefixReads(m, rest);
  }

  lemma FrameShape(len: Bytes, m: Bytes, tail: Bytes, rest: Bytes)
    ensures len + m + tail + rest == len + (m + (tail + rest))
  {
  }

  lemma {:induction false} WalkAppend(prefix: seq<Bytes>, done: Bytes, rest: Bytes)
    requires Framable(prefix) && done == Frame(prefix)
    ensures Walk(done + rest) == Walked(prefix + Walk(rest).delivered, Walk(rest).complete)
    decreases |prefix|
  {
    if prefix == [] {
      assert done + rest == rest;
      assert prefix + Walk(rest).delivered == Walk(rest).delivered;
    } else {
      var m, tail := prefix[0], Frame(prefix[1..]);
      WalkAppend(prefix[1..], tail, rest);
      FrameShape(LittleEndian(|m|, 2), m, tail, rest);
      WalkMember(m, tail + rest);
      Regroup([m], prefix[1..], Walk(rest).delivered);
      assert [m] + prefix[1..] == prefix;
    }
  }

  /** Walking the framing of any member list, zero-length members included, delivers it. */
  lemma WalkRoundTrip(members: seq<Bytes>)
    requires Framable(members)
    ensures Walk(Frame(members)) == Walked(members, true)
  {
    WalkAppend(members, Frame(members), []);
    assert Frame(members) + [] == Frame(members);
  }

  /** The bytes the walker leaves behind. */
  function Leftover(body: Bytes): Bytes
    decreases |body|
  {
    if !HasMember(body) then body else Leftover(body[2 + FromLittleEndian(body[..2])..])
  }

  /** What was delivered is the framing of the bytes consumed; nothing complete is left, and
      the walker says so exactly when nothing at all is left. */
  lemma {:induction false} WalkConsumes(body: Bytes)
    ensures Framable(Walk(body).delivered)
    ensures body == Frame(Walk(body).delivered) + Leftover(body)
    ensures !HasMember(Leftover(body))
    ensures Walk(body).complete <==> Leftover(body) == []
    decreases |body|
  {
    if HasMember(body) {
      var n := FromLittleEndian(body[..2]);
      var m, tail := body[2..2 + n], body[2 + n..];
      WalkConsumes(tail);
      var rest := Walk(tail).delivered;
      HeadFrames(body);
      assert ([m] + rest)[1..] == rest;
      assert FrameOne(m) + tail == FrameOne(m) + Frame(rest) + Leftover(tail);
    }
  }

  lemma HeadFrames(body: Bytes)
    requires HasMember(body)
    ensures var n := FromLittleEndian(body[..2]);
            n < 0x1_0000 && body == FrameOne(body[2..2 + n]) + body[2 + n..]
  {
    FromLittleEndianRoundTrip(body[..2]);
    PairBelow(body[..2]);
  }

  lemma PairBelow(s: Bytes)
    requires |s| == 2
    ensures FromLittleEndian(s) < 0x1_0000
  {
    assert FromLittleEndian(s[1..]) == s[1] + 256 * FromLittleEndian(s[1..][1..]);
    assert s[1..][1..] == [];
  }

  /** The walk is complete exactly when the body is the framing of what was delivered. */
  lemma CompleteIffFramed(body: Bytes)
    ensures Walk(body).complete <==> body == Frame(Walk(body).delivered)
  {
    WalkConsumes(body);
  }

  /** Longest prefix: every member list framed at the front of the body was delivered, in order. */
  lemma DeliversLongestPrefix(body: Bytes, members: seq<Bytes>, rest: Bytes)
    requires Framable(members) && body == Frame(members) + rest
    ensures members <= Walk(body).delivered
  {
    WalkAppend(members, Frame(members), rest);
  }

  function EncodeBundle(members: seq<Bytes>): Bytes {
    [MESSAGE_BUNDLE] + Frame(members)
  }

  function EncodeSignedBundle(members: seq<Bytes>, tag: Bytes): Bytes {
    [MESSAGE_BUNDLE_SIGNED] + Frame(members) + tag
  }

  lemma BundleRoundTrip(members: seq<Bytes>)
    requires Framable(members)
    ensures Deliver(EncodeBundle(members)) == Walked(members, true)
  {
    WalkRoundTrip(members);
    assert EncodeBundle(members)[1..] == Frame(members);
  }

  /** A signed bundle round-trips exactly when it has a member. */
  lemma SignedBundleRoundTrip(members: seq<Bytes>, tag: Bytes)
    requires Framable(members) && |tag| == TAG_SIZE
    ensures Deliver(EncodeSignedBundle(members, tag)) == Walked(members, true) <==> members != []
  {
    var data := EncodeSignedBundle(members, tag);
    WalkRoundTrip(members);
    assert data[1..|data| - TAG_SIZE] == Frame(members);
    if members != [] {
      assert |FrameOne(members[0])| >= 2;
    }
  }

  /** One turn of the walker at `offset`. */
  lemma WalkOne(data: Bytes, offset: nat, len: nat)
    requires offset + 2 <= len <= |data|
    ensures var n := FromLittleEndian(data[offset..offset + 2]);
            Walk(data[offset..len]) ==
              if offset + 2 + n > len then Walked([], false)
              else var rest := Walk(data[offset + 2 + n..len]);
                   Walked([data[offset + 2..offset + 2 + n]] + rest.delivered, rest.complete)
  {
    var here, n := data[offset..len], FromLittleEndian(data[offset..offset + 2]);
    assert here[..2] == data[offset..offset + 2];
    if offset + 2 + n <= len {
      assert here[2 + n..] == data[offset + 2 + n..len];
      SliceOfSlice(data, offset, len, 2, 2 + n);
    }
  }

  lemma Regroup(a: seq<Bytes>, b: seq<Bytes>, c: seq<Bytes>)
    ensures a + (b + c) == a + b + c
  {
  }

  /** The loop itself.  Every read is in bounds and the offset strictly grows, even over
      zero-length members. */
  method ForEachMessage(data: Bytes) returns (delivered: seq<Bytes>, ok: bool)
    ensures Walked(delivered, ok) == Deliver(data)
  {
    if data == [] {
      return [], false;
    }
    if data[0] == MESSAGE_BUNDLE_SIGNED {
      if |data| <= TAG_SIZE + 1 {
        return [], false;
      }
      delivered, ok := WalkBody(data, |data| - TAG_SIZE);
    } else if data[0] != MESSAGE_BUNDLE {
      return [data], true;
    } else {
      assert data[1..|data|] == data[1..];
      delivered, ok := WalkBody(data, |data|);
    }
  }

  method WalkBody(data: Bytes, len: nat) returns (delivered: seq<Bytes>, ok: bool)
    requires 1 <= len <= |data|
    ensures Walked(delivered, ok) == Walk(data[1..len])
  {
    delivered := [];
    var offset := 1;
    while offset < len
      invariant 1 <= offset <= len
      invariant Walk(data[1..len]).delivered == delivered + Walk(data[offset..len]).delivered
      invariant Walk(data[1..len]).complete == Walk(data[offset..len]).complete
      decreases len - offset
    {
      if offset + 2 > len {
        return delivered, false;
      }
      WalkOne(data, offset, len);
      var msgLen := FromLittleEndian(data[offset..offset + 2]);
      offset := offset + 2;
      if offset + msgLen > len {
        return delivered, false;
      }
      var member := data[offset..offset + msgLen];
      Regroup(delivered, [member], Walk(data[offset + msgLen..len]).delivered);
      delivered := delivered + [member];
      offset := offset + msgLen;
    }
    ok := true;
  }
}
