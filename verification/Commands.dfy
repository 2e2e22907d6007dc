/** The commands the driver feeds to the device, their encoding as words, and the way the device
    cuts its word stream back into commands. */
module Commands {
  import opened Basics
  import opened Words

  datatype Cmd =
    | Bind(slot: Word, seed: bv64, allowed: Word, table: bv64)
    | Unbind(slot: Word)
    | GetDie(header: Word, mask: Word)
    | NewSet(header: Word)
    | Fence(value: Word)

  /** A command the driver can build: fields within their width, headers of the right type. */
  predicate Proper(c: Cmd) {
    match c
    case Bind(slot, _, _, _) => slot <= 0xF
    case Unbind(slot) => slot <= 0xF
    case GetDie(header, _) => TypeOf(header) == GET_DIE
    case NewSet(header) => TypeOf(header) == NEW_SET
    case Fence(value) => value < 0x1000_0000
  }

  function Encode(c: Cmd): seq<Word> {
    match c
    case Bind(slot, seed, allowed, table) => [BindHeader(slot, seed), allowed, Low32(table), Low32(table >> 32)]
    case Unbind(slot) => [UnbindHeader(slot)]
    case GetDie(header, mask) => [header, mask]
    case NewSet(header) => [header]
    case Fence(value) => [FenceHeader(value)]
  }

  /** The number of words of a command, as the device learns it from the header. */
  function Arity(header: Word): nat {
    if TypeOf(header) == BIND_SLOT then 4 else if TypeOf(header) == GET_DIE then 2 else 1
  }

  /** A whole command as words: as many words as its header announces. */
  predicate IsFrame(frame: seq<Word>) { |frame| > 0 && |frame| == Arity(frame[0]) }

  /** The device's reading of a frame. */
  function Decode(frame: seq<Word>): Option<Cmd>
    requires IsFrame(frame)
  {
    var h := frame[0];
    if TypeOf(h) == BIND_SLOT then
      Some(Bind(SlotAt4(h), SeedField(h) as bv64, frame[1], JoinAddress(frame[2], frame[3])))
    else if TypeOf(h) == GET_DIE then Some(GetDie(h, frame[1]))
    else if TypeOf(h) == FENCE then Some(Fence(FenceField(h)))
    else if TypeOf(h) == NEW_SET then Some(NewSet(h))
    else if TypeOf(h) == UNBIND_SLOT then Some(Unbind(SlotAt4(h)))
    else None
  }

  // The device reads back what was encoded: of a seed, the lowest twenty bits, and all else unchanged.

  lemma BindRoundTrip(slot: Word, seed: bv64, allowed: Word, table: bv64)
    requires slot <= 0xF
    ensures var f := Encode(Bind(slot, seed, allowed, table));
            IsFrame(f) && Decode(f) == Some(Bind(slot, seed & 0xF_FFFF, allowed, table))
  {
    BindHeaderRoundTrip(slot, seed);
    BindAddressRoundTrip(table);
    Low32OfSeed(seed);
  }

  lemma UnbindRoundTrip(slot: Word)
    requires slot <= 0xF
    ensures var f := Encode(Unbind(slot)); IsFrame(f) && Decode(f) == Some(Unbind(slot))
  {
    UnbindHeaderRoundTrip(slot);
  }

  lemma FenceRoundTrip(value: Word)
    requires value < 0x1000_0000
    ensures var f := Encode(Fence(value)); IsFrame(f) && Decode(f) == Some(Fence(value))
  {
    FenceHeaderRoundTrip(value);
  }

  lemma UserRoundTrip(header: Word, mask: Word)
    ensures TypeOf(header) == GET_DIE ==>
              var f := Encode(GetDie(header, mask)); IsFrame(f) && Decode(f) == Some(GetDie(header, mask))
    ensures TypeOf(header) == NEW_SET ==>
              var f := Encode(NewSet(header)); IsFrame(f) && Decode(f) == Some(NewSet(header))
  {
  }

  lemma Low32OfSeed(seed: bv64)
    ensures Low32(seed & 0xF_FFFF) as bv64 == seed & 0xF_FFFF
  {
  }

  /** Every command the driver builds is one frame. */
  lemma EncodeIsFrame(c: Cmd)
    requires Proper(c)
    ensures IsFrame(Encode(c))
  {
    match c
    case Bind(slot, seed, _, _) => BindHeaderRoundTrip(slot, seed);
    case Unbind(slot) => UnbindHeaderRoundTrip(slot);
    case GetDie(_, _) =>
    case NewSet(_) =>
    case Fence(value) => FenceHeaderRoundTrip(value);
  }

  // ---------- Framing of the word stream ----------

  function Flatten(frames: seq<seq<Word>>): seq<Word> {
    if frames == [] then [] else frames[0] + Flatten(frames[1..])
  }

  /** The complete commands the device finds in a word stream. */
  function Frames(stream: seq<Word>): (frames: seq<seq<Word>>)
    ensures forall i :: 0 <= i < |frames| ==> IsFrame(frames[i])
    decreases |stream|
  {
    if stream == [] || |stream| < Arity(stream[0]) then []
    else [stream[..Arity(stream[0])]] + Frames(stream[Arity(stream[0])..])
  }

  /** The words of a command that is not complete yet. */
  function Leftover(stream: seq<Word>): seq<Word>
    decreases |stream|
  {
    if stream == [] || |stream| < Arity(stream[0]) then stream
    else Leftover(stream[Arity(stream[0])..])
  }

  predicate IsPartial(words: seq<Word>) { words == [] || |words| < Arity(words[0]) }

  lemma FramesCons(frame: seq<Word>, rest: seq<Word>)
    requires IsFrame(frame)
    ensures Frames(frame + rest) == [frame] + Frames(rest)
    ensures Leftover(frame + rest) == Leftover(rest)
  {
    var stream := frame + rest;
    assert stream[0] == frame[0];
    assert stream[..|frame|] == frame;
    assert stream[|frame|..] == rest;
  }

  /** The device recovers exactly the commands that were sent, whatever they are. */
  lemma {:induction false} FramesOfFlatten(frames: seq<seq<Word>>, part: seq<Word>)
    requires forall i :: 0 <= i < |frames| ==> IsFrame(frames[i])
    requires IsPartial(part)
    ensures Frames(Flatten(frames) + part) == frames
    ensures Leftover(Flatten(frames) + part) == part
  {
    if frames == [] {
      assert Flatten(frames) + part == part;
    } else {
      assert Flatten(frames) + part == frames[0] + (Flatten(frames[1..]) + part);
      FramesOfFlatten(frames[1..], part);
      FramesCons(frames[0], Flatten(frames[1..]) + part);
    }
  }

  lemma {:induction false} FlattenAppend(frames: seq<seq<Word>>, frame: seq<Word>)
    ensures Flatten(frames + [frame]) == Flatten(frames) + frame
  {
    if frames == [] {
      assert (frames + [frame])[1..] == [];
    } else {
      assert (frames + [frame])[1..] == frames[1..] + [frame];
      FlattenAppend(frames[1..], frame);
    }
  }
}
