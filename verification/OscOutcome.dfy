/**
 What a write into given room comes to, told from the message and the room alone: which
 refusal it is, or that the message is written.
 */
module OscOutcome {
  import opened Bytes
  import opened TinyOsc

  // Address, comma and format have room.
  predicate HeadFits(address: seq<Byte>, args: seq<Arg>, len: nat) {
    Up4(|address|) + 1 + |args| < len
  }

  // Where the arguments begin.
  function HeadLength(address: seq<Byte>, args: seq<Arg>): nat {
    Up4(|address|) + Up4(|args| + 1)
  }

  // The arguments in front of the first unknown type.
  function Known(args: seq<Arg>): (k: seq<Arg>)
    ensures AllKnown(k)
  {
    if args == [] || args[0].Unknown? then [] else [args[0]] + Known(args[1..])
  }

  // An argument's bytes without their padding, a text's terminating zero included.
  function Unpadded(a: Arg): nat {
    match a
    case Str(s) => |s| + 1
    case Blob(b) => 4 + |b|
    case _ => |EncodeArg(a)|
  }

  // Every argument that has bytes ends, unpadded, within the room.
  predicate EndWithin(args: seq<Arg>, i: nat, len: nat) {
    forall k: nat :: k < |args| && Unpadded(args[k]) > 0 ==>
      i + |EncodeArgs(args[..k])| + Unpadded(args[k]) <= len
  }

  // The message is written.
  predicate Accepted(address: seq<Byte>, args: seq<Arg>, len: nat) {
    HeadFits(address, args, len) && AllKnown(args) && EndWithin(args, HeadLength(address, args), len)
  }

  // An unknown type is what stops it.
  predicate StoppedByType(address: seq<Byte>, args: seq<Arg>, len: nat) {
    && HeadFits(address, args, len) && !AllKnown(args)
    && EndWithin(Known(args), HeadLength(address, args), len)
  }

  lemma {:induction false} KnownAll(args: seq<Arg>)
    ensures |Known(args)| == |args| <==> AllKnown(args)
    ensures AllKnown(args) ==> Known(args) == args
    ensures |Known(args)| <= |args|
    ensures AllPassable(args) ==> AllPassable(Known(args))
  {
    hide Passable;
    if args != [] && !args[0].Unknown? {
      KnownAll(args[1..]);
      assert forall j :: 0 < j < |args| ==> args[j] == args[1..][j - 1];
      if AllKnown(args[1..]) { assert args == [args[0]] + args[1..]; }
    }
  }

  // The first argument, and those behind it.
  lemma FirstEnds(a: Arg, rest: seq<Arg>, i: nat, len: nat)
    ensures EndWithin([a] + rest, i, len) <==>
              (Unpadded(a) > 0 ==> i + Unpadded(a) <= len) && EndWithin(rest, i + |EncodeArg(a)|, len)
  {
    var args := [a] + rest;
    hide Unpadded, EncodeArg;
    assert args[..0] == [] && EncodeArgs(args[..0]) == [];
    forall k: nat | k < |rest|
      ensures args[k + 1] == rest[k] && |EncodeArgs(args[..k + 1])| == |EncodeArg(a)| + |EncodeArgs(rest[..k])|
    {
      assert args[..k + 1] == [a] + rest[..k];
      FirstArg(args[..k + 1]);
      assert args[..k + 1][1..] == rest[..k];
    }
    if EndWithin(args, i, len) {
      assert Unpadded(args[0]) > 0 ==> i + |EncodeArgs(args[..0])| + Unpadded(args[0]) <= len;
      forall k: nat | k < |rest| && Unpadded(rest[k]) > 0
        ensures i + |EncodeArg(a)| + |EncodeArgs(rest[..k])| + Unpadded(rest[k]) <= len
      {
        assert i + |EncodeArgs(args[..k + 1])| + Unpadded(args[k + 1]) <= len;
      }
    }
    if (Unpadded(a) > 0 ==> i + Unpadded(a) <= len) && EndWithin(rest, i + |EncodeArg(a)|, len) {
      forall k: nat | k < |args| && Unpadded(args[k]) > 0
        ensures i + |EncodeArgs(args[..k])| + Unpadded(args[k]) <= len
      {
        if k > 0 {
          var j := k - 1;
          assert args[j + 1] == rest[j] && |EncodeArgs(args[..j + 1])| == |EncodeArg(a)| + |EncodeArgs(rest[..j])|;
        }
      }
    }
  }

  lemma OneOutcome(a: Arg, i: nat, len: nat)
    requires Passable(a)
    ensures WriteArg(a, i, len) == Refused(BAD_TAG) <==> a.Unknown?
    ensures !a.Unknown? ==> (WriteArg(a, i, len).Put? <==> (Unpadded(a) > 0 ==> i + Unpadded(a) <= len))
    ensures WriteArg(a, i, len).Put? ==> |WriteArg(a, i, len).bytes| == |EncodeArg(a)|
    ensures WriteArg(a, i, len).Refused? && !a.Unknown? ==> WriteArg(a, i, len).code == NO_ROOM
  {
    hide Be32, Be64, CutText;
  }

  lemma {:induction false} ArgsOutcome(args: seq<Arg>, i: nat, len: nat)
    requires AllPassable(args)
    ensures var c := WriteArgs(args, i, len).0;
            && (c == NO_ROOM <==> !EndWithin(Known(args), i, len))
            && (c == BAD_TAG <==> EndWithin(Known(args), i, len) && !AllKnown(args))
            && (c == 0 <==> EndWithin(Known(args), i, len) && AllKnown(args))
    decreases |args|
  {
    hide WriteArg, EncodeArg, Passable, Unpadded, EndWithin, EncodeArgs;
    KnownAll(args);
    if args == [] {
      NoneEnds(i, len);
    } else {
      FirstArg(args);
      OneOutcome(args[0], i, len);
      if args[0].Unknown? {
        NoneEnds(i, len);
      } else {
        KnownAll(args[1..]);
        FirstEnds(args[0], Known(args[1..]), i, len);
        ArgsOutcome(args[1..], i + |EncodeArg(args[0])|, len);
      }
    }
  }

  lemma NoneEnds(i: nat, len: nat)
    ensures EndWithin([], i, len)
  {
  }

  // Each outcome, for any message and any room.
  lemma OutcomeIff(address: seq<Byte>, args: seq<Arg>, len: nat)
    requires AllPassable(args)
    ensures var r, head := VWrite(address, args, len).0, HeadLength(address, args);
            && (r == NO_ADDRESS <==> |address| >= len)
            && (r == NO_FORMAT <==> |address| < len && !HeadFits(address, args, len))
            && (r == NO_ROOM <==> HeadFits(address, args, len) && !EndWithin(Known(args), head, len))
            && (r == BAD_TAG <==> StoppedByType(address, args, len))
            && (r >= 0 <==> Accepted(address, args, len))
  {
    hide WriteArgs, AllPassable, Padded, CutFormat, Tags, EndWithin, AllKnown, Known;
    KnownAll(args);
    ArgsOutcome(args, HeadLength(address, args), len);
  }

  // A message is left whole, its length reported, exactly when it is accepted and its
  // format and texts have double room.
  lemma WholeIff(address: seq<Byte>, args: seq<Arg>, len: nat)
    requires Text(address) && AllPassable(args)
    ensures VWrite(address, args, len) == (|Encode(address, args)|, Encode(address, args)) <==>
              Accepted(address, args, len) && Roomy(address, args, len)
  {
    hide *;
    OutcomeIff(address, args, len);
    if VWrite(address, args, len).0 >= 0 { WrittenWholeIff(address, args, len); }
  }

  // ---- room in whole words ----

  lemma {:induction false} WholeWordsEnd(args: seq<Arg>, i: nat, len: nat)
    requires AllPassable(args) && AllKnown(args) && Aligned(i) && Aligned(len) && i <= len
    ensures EndWithin(args, i, len) <==> i + |EncodeArgs(args)| <= len
    decreases |args|
  {
    hide EncodeArg, Passable, Unpadded, EndWithin, EncodeArgs, AllPassable, AllKnown, Aligned;
    if args == [] {
      NoneEnds(i, len);
      NoBytes();
    } else {
      FirstArg(args);
      FirstEnds(args[0], args[1..], i, len);
      OneWholeWords(args[0], i, len);
      ArgAligned(args[0]);
      SumAligned(i, |EncodeArg(args[0])|);
      if i + |EncodeArg(args[0])| <= len { WholeWordsEnd(args[1..], i + |EncodeArg(args[0])|, len); }
    }
  }

  lemma NoBytes()
    ensures EncodeArgs([]) == []
  {
  }

  lemma OneWholeWords(a: Arg, i: nat, len: nat)
    requires Passable(a) && !a.Unknown? && Aligned(i) && Aligned(len) && i <= len
    ensures (Unpadded(a) > 0 ==> i + Unpadded(a) <= len) <==> i + |EncodeArg(a)| <= len
  {
    hide Be32, Be64;
    if a.Blob? { assert |EncodeArg(a)| == 4 + Words(|a.b|); }
  }

  lemma WholeWordsHead(address: seq<Byte>, args: seq<Arg>, len: nat)
    requires Aligned(len)
    ensures HeadFits(address, args, len) <==> HeadLength(address, args) <= len
    ensures Aligned(HeadLength(address, args))
  {
  }

  // In whole words: an unknown type is what stops a write exactly when everything in
  // front of it has room, and a message of known types is written exactly when it has.
  lemma WholeWordsOutcome(address: seq<Byte>, args: seq<Arg>, len: nat)
    requires AllPassable(args) && Aligned(len)
    ensures var r := VWrite(address, args, len).0;
            && (r == BAD_TAG <==>
                  !AllKnown(args) && HeadLength(address, args) + |EncodeArgs(Known(args))| <= len)
            && (r >= 0 <==> AllKnown(args) && |Encode(address, args)| <= len)
  {
    hide VWrite, EncodeArgs, EndWithin, AllKnown, Known, Encode, HeadFits, Aligned, AllPassable, HeadLength;
    OutcomeIff(address, args, len);
    WholeWordsHead(address, args, len);
    EncodeLengthIs(address, args);
    KnownAll(args);
    var head := HeadLength(address, args);
    if head <= len { WholeWordsEnd(Known(args), head, len); }
  }

  lemma EncodeLengthIs(address: seq<Byte>, args: seq<Arg>)
    ensures |Encode(address, args)| == HeadLength(address, args) + |EncodeArgs(args)|
  {
    EncodeLength(address, args);
    hide EncodeArgs, Encode;
  }
}
