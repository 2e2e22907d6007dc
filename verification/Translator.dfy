/** Translation of a task: the work thread reads a user's command words, checks them, inserts the slot of
    the output buffer and feeds the result to the device. */
module Translator {
  import opened Basics
  import opened Words
  import opened Commands
  import opened Iterators
  import opened FeedPort

  /** A command of a user that is passed on to the device. */
  datatype UserCmd = UGetDie(header: Word, mask: Word) | UNewSet(header: Word)

  /** A command stream as a user thinks of it: no-operations and commands. */
  datatype Item = Skip(word: Word) | Do(cmd: UserCmd)

  datatype Verdict =
    | Accepted   // every command was acceptable
    | Rejected   // some command was not, and the context fails
    | Truncated  // the last word is a GET_DIE header, and the loop asks for a word past the end

  predicate GetDieOk(header: Word, mask: Word, allowed: Word) {
    header & GET_DIE_SLOT_MASK == 0 && mask & !allowed == 0
  }

  predicate NewSetOk(header: Word) { header & NEW_SET_SLOT_MASK == 0 }

  /** What one round of the loop finds at the start of the words that are left. */
  datatype Round = Found(item: Item) | Stop(verdict: Verdict)

  /** One round of the loop. Its test `bytes_left < 4` counts the header itself, so it never holds, and a
      GET_DIE header that is the last word makes the loop ask for a word past the end. */
  function Look(words: seq<Word>, allowed: Word): Round {
    if words == [] then Stop(Accepted)
    else if TypeOf(words[0]) == NOP then Found(Skip(words[0]))
    else if TypeOf(words[0]) == GET_DIE then
      if |words| < 2 then Stop(Truncated)
      else if GetDieOk(words[0], words[1], allowed) then Found(Do(UGetDie(words[0], words[1])))
      else Stop(Rejected)
    else if TypeOf(words[0]) == NEW_SET && NewSetOk(words[0]) then Found(Do(UNewSet(words[0])))
    else Stop(Rejected)
  }

  function SpellItem(item: Item): seq<Word> {
    match item
    case Skip(word) => [word]
    case Do(UGetDie(header, mask)) => [header, mask]
    case Do(UNewSet(header)) => [header]
  }

  lemma LookSpells(words: seq<Word>, allowed: Word)
    ensures var r := Look(words, allowed); r.Found? ==> ItemOk(r.item, allowed) && SpellItem(r.item) <= words
    ensures Look(words, allowed) == Stop(Accepted) <==> words == []
    ensures Look(words, allowed) == Stop(Rejected) <==> Offends(words, allowed)
    ensures Look(words, allowed) == Stop(Truncated) <==> BareGetDie(words)
  {
  }

  /** What the loop makes of a sequence of words: the commands it feeds, before insertion of the slot, and
      how it ends. */
  datatype Parsed = Parsed(cmds: seq<UserCmd>, verdict: Verdict)

  function Parse(words: seq<Word>, allowed: Word): Parsed
    decreases |words|
  {
    match Look(words, allowed)
    case Stop(verdict) => Parsed([], verdict)
    case Found(item) =>
      LookSpells(words, allowed);
      Extend(item, Parse(words[|SpellItem(item)|..], allowed))
  }

  function Extend(item: Item, p: Parsed): Parsed {
    if item.Skip? then p else p.(cmds := [item.cmd] + p.cmds)
  }

  // ---------- The language of command streams ----------

  /** An item that the driver lets through. */
  predicate ItemOk(item: Item, allowed: Word) {
    match item
    case Skip(word) => TypeOf(word) == NOP
    case Do(UGetDie(header, mask)) => TypeOf(header) == GET_DIE && GetDieOk(header, mask, allowed)
    case Do(UNewSet(header)) => TypeOf(header) == NEW_SET && NewSetOk(header)
  }

  predicate AllOk(items: seq<Item>, allowed: Word) {
    forall i :: 0 <= i < |items| ==> ItemOk(items[i], allowed)
  }

  function Spell(items: seq<Item>): seq<Word> {
    if items == [] then [] else SpellItem(items[0]) + Spell(items[1..])
  }

  /** The commands among the items. */
  function EraseNops(items: seq<Item>): seq<UserCmd> {
    if items == [] then []
    else (if items[0].Skip? then [] else [items[0].cmd]) + EraseNops(items[1..])
  }

  /** Words that start with a complete command that the driver does not let through. */
  predicate Offends(words: seq<Word>, allowed: Word) {
    && words != []
    && TypeOf(words[0]) != NOP
    && (TypeOf(words[0]) == GET_DIE ==> |words| >= 2 && !GetDieOk(words[0], words[1], allowed))
    && (TypeOf(words[0]) == NEW_SET ==> !NewSetOk(words[0]))
  }

  /** A GET_DIE header without its operand. */
  predicate BareGetDie(words: seq<Word>) { |words| == 1 && TypeOf(words[0]) == GET_DIE }

  lemma LookAtItem(item: Item, tail: seq<Word>, allowed: Word)
    requires ItemOk(item, allowed)
    ensures Look(SpellItem(item) + tail, allowed) == Found(item)
    ensures (SpellItem(item) + tail)[|SpellItem(item)|..] == tail
  {
  }

  lemma {:induction false} ParseSpell(items: seq<Item>, rest: seq<Word>, allowed: Word)
    requires AllOk(items, allowed)
    ensures Parse(Spell(items) + rest, allowed)
         == Parsed(EraseNops(items) + Parse(rest, allowed).cmds, Parse(rest, allowed).verdict)
  {
    if items == [] {
      assert Spell(items) + rest == rest;
    } else {
      assert Spell(items) + rest == SpellItem(items[0]) + (Spell(items[1..]) + rest);
      LookAtItem(items[0], Spell(items[1..]) + rest, allowed);
      ParseSpell(items[1..], rest, allowed);
      EraseNopsAppend(items, Parse(rest, allowed).cmds);
    }
  }

  lemma EraseNopsAppend(items: seq<Item>, more: seq<UserCmd>)
    requires items != []
    ensures EraseNops(items) + more
         == if items[0].Skip? then EraseNops(items[1..]) + more else [items[0].cmd] + (EraseNops(items[1..]) + more)
  {
  }

  /** The longest acceptable prefix of a sequence of words, and what follows it. */
  function Split(words: seq<Word>, allowed: Word): (seq<Item>, seq<Word>)
    decreases |words|
  {
    match Look(words, allowed)
    case Stop(_) => ([], words)
    case Found(item) =>
      LookSpells(words, allowed);
      var (items, rest) := Split(words[|SpellItem(item)|..], allowed);
      ([item] + items, rest)
  }

  lemma {:induction false} SplitSpells(words: seq<Word>, allowed: Word)
    ensures Spell(Split(words, allowed).0) + Split(words, allowed).1 == words
    decreases |words|
  {
    LookSpells(words, allowed);
    match Look(words, allowed)
    case Stop(_) =>
      assert Spell([]) + words == words;
    case Found(item) =>
      var tail := words[|SpellItem(item)|..];
      SplitSpells(tail, allowed);
      SpellCons(item, Split(tail, allowed).0, Split(tail, allowed).1, words);
  }

  lemma SpellCons(item: Item, items: seq<Item>, rest: seq<Word>, words: seq<Word>)
    requires SpellItem(item) <= words
    requires Spell(items) + rest == words[|SpellItem(item)|..]
    ensures Spell([item] + items) + rest == words
  {
    assert ([item] + items)[1..] == items;
    assert Spell([item] + items) == SpellItem(item) + Spell(items);
    assert words == SpellItem(item) + words[|SpellItem(item)|..];
  }

  lemma {:induction false} SplitOk(words: seq<Word>, allowed: Word)
    ensures AllOk(Split(words, allowed).0, allowed)
    ensures Look(Split(words, allowed).1, allowed).Stop?
    decreases |words|
  {
    LookSpells(words, allowed);
    match Look(words, allowed)
    case Stop(_) =>
    case Found(item) => SplitOk(words[|SpellItem(item)|..], allowed);
  }

  /** Translation is complete and sound. Every stream splits into acceptable items and a remainder that is
      empty, starts with an offending command, or is a bare GET_DIE header; the loop feeds exactly the
      commands among the items, and ends accordingly. */
  lemma ParseMeaning(words: seq<Word>, allowed: Word)
    ensures var (items, rest) := Split(words, allowed);
            && AllOk(items, allowed) && Spell(items) + rest == words
            && Parse(words, allowed).cmds == EraseNops(items)
            && (Parse(words, allowed).verdict.Accepted? <==> rest == [])
            && (Parse(words, allowed).verdict.Rejected? <==> Offends(rest, allowed))
            && (Parse(words, allowed).verdict.Truncated? <==> BareGetDie(rest))
  {
    SplitSpells(words, allowed);
    SplitOk(words, allowed);
    var (items, rest) := Split(words, allowed);
    LookSpells(rest, allowed);
    ParseSpell(items, rest, allowed);
  }

  /** However a stream is split, the outcome is the one of the split: what the loop does is determined by the
      meaning of the stream and not by the way it is read. */
  lemma ParseUnique(items: seq<Item>, rest: seq<Word>, allowed: Word)
    requires AllOk(items, allowed)
    requires rest == [] || Offends(rest, allowed) || BareGetDie(rest)
    ensures Parse(Spell(items) + rest, allowed).cmds == EraseNops(items)
    ensures Parse(Spell(items) + rest, allowed).verdict
         == if rest == [] then Accepted else if Offends(rest, allowed) then Rejected else Truncated
  {
    LookSpells(rest, allowed);
    ParseSpell(items, rest, allowed);
  }

  /** The loop asks for a word past the end of its stream exactly when acceptable items are followed by a bare
      GET_DIE header, which a caller could check before submitting. */
  lemma OverrunExactly(words: seq<Word>, allowed: Word)
    ensures Parse(words, allowed).verdict.Truncated?
       <==> exists items, header ::
              AllOk(items, allowed) && TypeOf(header) == GET_DIE && words == Spell(items) + [header]
  {
    ParseMeaning(words, allowed);
    if Parse(words, allowed).verdict.Truncated? {
      var (items, rest) := Split(words, allowed);
      assert rest == [rest[0]];
    }
    forall items, header | AllOk(items, allowed) && TypeOf(header) == GET_DIE && words == Spell(items) + [header]
      ensures Parse(words, allowed).verdict.Truncated?
    {
      ParseUnique(items, [header], allowed);
    }
  }

  /** The shortest stream that makes the loop ask for a word past its end. */
  lemma OverrunExample(allowed: Word)
    ensures Parse([GetDieHeader(1, 0)], allowed).verdict.Truncated?
  {
    assert TypeOf(GetDieHeader(1, 0)) == GET_DIE;
  }

  // ---------- Insertion of the slot ----------

  function Insert(c: UserCmd, slot: Word): Cmd {
    match c
    case UGetDie(header, mask) => GetDie(InsertGetDieSlot(header, slot), mask)
    case UNewSet(header) => NewSet(InsertNewSetSlot(header, slot))
  }

  /** A command that Parse lets through. */
  predicate CmdOk(c: UserCmd, allowed: Word) { ItemOk(Do(c), allowed) }

  lemma {:induction false} ParseCmdsOk(words: seq<Word>, allowed: Word, k: nat)
    requires k < |Parse(words, allowed).cmds|
    ensures CmdOk(Parse(words, allowed).cmds[k], allowed)
    decreases |words|
  {
    LookSpells(words, allowed);
    var item := Look(words, allowed).item;
    var tail := words[|SpellItem(item)|..];
    if item.Skip? {
      ParseCmdsOk(tail, allowed, k);
    } else if k > 0 {
      ParseCmdsOk(tail, allowed, k - 1);
    }
  }

  /** The low bit of the slot field that the user wrote. */
  predicate LowBit(c: UserCmd) {
    match c
    case UGetDie(header, _) => GetDieLowBit(header)
    case UNewSet(header) => NewSetLowBit(header)
  }

  /** The slot that the device reads from a fed command. */
  function NamedSlot(c: Cmd): Word {
    match c
    case Bind(slot, _, _, _) => slot
    case Unbind(slot) => slot
    case GetDie(header, _) => SlotAt24(header)
    case NewSet(header) => SlotAt4(header)
    case Fence(_) => 0
  }

  lemma InsertNamesSlot(c: UserCmd, slot: Word, allowed: Word)
    requires CmdOk(c, allowed) && slot <= 0xF
    ensures NamedSlot(Insert(c, slot)) == slot <==> !LowBit(c) || Odd(slot)
  {
    match c
    case UGetDie(header, _) => InsertGetDieSlotExact(header, slot);
    case UNewSet(header) => InsertNewSetSlotExact(header, slot);
  }

  lemma InsertProper(c: UserCmd, slot: Word, allowed: Word)
    requires CmdOk(c, allowed) && slot <= 0xF
    ensures Proper(Insert(c, slot))
  {
    match c
    case UGetDie(header, _) => InsertGetDieSlotKeeps(header, slot);
    case UNewSet(header) => InsertNewSetSlotKeeps(header, slot);
  }

  // ---------- The published number of results ----------

  /** What a fed command adds to the result count of its task. */
  function Published(c: UserCmd): nat {
    match c
    case UGetDie(header, _) => Value(header & GET_DIE_NUM_MASK)
    case UNewSet(_) => 0
  }

  function PublishedSum(cmds: seq<UserCmd>): nat {
    if cmds == [] then 0 else PublishedSum(cmds[..|cmds| - 1]) + Published(cmds[|cmds| - 1])
  }

  // ---------- The loop ----------

  /** The words of the commands as they reach the device. */
  function FedWords(cmds: seq<UserCmd>, slot: Word): seq<Word> {
    if cmds == [] then [] else FedWords(cmds[..|cmds| - 1], slot) + Encode(Insert(cmds[|cmds| - 1], slot))
  }

  function RoundPublishes(round: Round): nat {
    if round.Found? && round.item.Do? then Published(round.item.cmd) else 0
  }

  function RoundFeeds(round: Round, slot: Word): seq<Word> {
    if round.Found? && round.item.Do? then Encode(Insert(round.item.cmd, slot)) else []
  }

  function Add(sent: seq<UserCmd>, item: Item): seq<UserCmd> {
    if item.Skip? then sent else sent + [item.cmd]
  }

  lemma SendOne(sent: seq<UserCmd>, item: Item, slot: Word, before: seq<Word>)
    ensures PublishedSum(Add(sent, item)) == PublishedSum(sent) + RoundPublishes(Found(item))
    ensures before + FedWords(Add(sent, item), slot) == before + FedWords(sent, slot) + RoundFeeds(Found(item), slot)
  {
    if item.Do? {
      assert (sent + [item.cmd])[..|sent|] == sent;
      assert FedWords(sent + [item.cmd], slot) == FedWords(sent, slot) + Encode(Insert(item.cmd, slot));
    }
  }

  /** The outcome when `sent` was fed before the words that `p` describes. */
  function After(sent: seq<UserCmd>, p: Parsed): Parsed { p.(cmds := sent + p.cmds) }

  /** The loop keeps the outcome: what was sent, together with what the words left over will give. */
  lemma AfterRound(sent: seq<UserCmd>, left: seq<Word>, allowed: Word)
    ensures var r := Look(left, allowed);
            && (r.Stop? ==> After(sent, Parse(left, allowed)) == Parsed(sent, r.verdict))
            && (r.Found? ==> |SpellItem(r.item)| <= |left|
                             && After(sent, Parse(left, allowed))
                             == After(Add(sent, r.item), Parse(left[|SpellItem(r.item)|..], allowed)))
  {
    LookSpells(left, allowed);
    assert sent + [] == sent;
    if Look(left, allowed).Found? {
      var item := Look(left, allowed).item;
      ExtendAfter(sent, item, Parse(left[|SpellItem(item)|..], allowed));
    }
  }

  lemma ExtendAfter(sent: seq<UserCmd>, item: Item, p: Parsed)
    ensures After(sent, Extend(item, p)) == After(Add(sent, item), p)
  {
    if item.Do? {
      assert sent + ([item.cmd] + p.cmds) == (sent + [item.cmd]) + p.cmds;
    }
  }

  /** Reads and checks one command. The second check of a GET_DIE is where the source would read past the words
      of the task. */
  method ReadCommand(it: TaskIterator, bytesLeft: nat, allowed: Word) returns (round: Round)
    requires it.Valid() && bytesLeft == 4 * (Length(it.source) - it.pos) && bytesLeft > 0
    modifies it
    ensures it.Valid()
    ensures round == Look(Handed(it.source)[old(it.pos)..], allowed)
    ensures round.Found? ==> it.pos == old(it.pos) + |SpellItem(round.item)|
  {
    var header := it.NextWord();
    if TypeOf(header) == NOP {
      round := Found(Skip(header));
    } else if TypeOf(header) == GET_DIE {
      if bytesLeft < 4 {
        return Stop(Rejected);
      }
      if bytesLeft < 8 {
        return Stop(Truncated);
      }
      var mask := it.NextWord();
      if GetDieOk(header, mask, allowed) {
        round := Found(Do(UGetDie(header, mask)));
      } else {
        round := Stop(Rejected);
      }
    } else if TypeOf(header) == NEW_SET && NewSetOk(header) {
      round := Found(Do(UNewSet(header)));
    } else {
      round := Stop(Rejected);
    }
  }

  /** One round of the loop: reads a command and passes it on, after insertion of the slot. */
  method RunCommand(it: TaskIterator, bytesLeft: nat, allowed: Word, slot: Word, port: Port) returns (round: Round)
    requires it.Valid() && bytesLeft == 4 * (Length(it.source) - it.pos) && bytesLeft > 0
    modifies it, port
    ensures it.Valid()
    ensures round == Look(Handed(it.source)[old(it.pos)..], allowed)
    ensures round.Found? ==> it.pos == old(it.pos) + |SpellItem(round.item)|
    ensures port.stream == old(port.stream) + RoundFeeds(round, slot)
  {
    round := ReadCommand(it, bytesLeft, allowed);
    port.FeedCmd(RoundFeeds(round, slot));
  }

  /** The loop over the words of a task whose output buffer is bound to `slot`, given as the bits of its number: the
      commands let through reach the device, and what they publish is counted. It stops at a command that is not
      acceptable, and where the source would read past the words of the task. */
  method RunLoop(it: TaskIterator, allowed: Word, slot: Word, port: Port) returns (verdict: Verdict, results: nat)
    requires it.Valid() && it.pos == 0
    modifies it, port
    ensures var p := Parse(Handed(it.source), allowed);
            && verdict == p.verdict
            && results == PublishedSum(p.cmds)
            && port.stream == old(port.stream) + FedWords(p.cmds, slot)
  {
    var bytesLeft := 4 * Length(it.source);
    results := 0;
    ghost var words := Handed(it.source);
    ghost var sent: seq<UserCmd> := [];
    assert words[0..] == words;
    while bytesLeft > 0
      invariant it.Valid() && bytesLeft == 4 * (|words| - it.pos)
      invariant Parse(words, allowed) == After(sent, Parse(words[it.pos..], allowed))
      invariant results == PublishedSum(sent)
      invariant port.stream == old(port.stream) + FedWords(sent, slot)
    {
      ghost var left := words[it.pos..];
      AfterRound(sent, left, allowed);
      var round := RunCommand(it, bytesLeft, allowed, slot, port);
      if round.Stop? {
        return round.verdict, results;
      }
      SendOne(sent, round.item, slot, old(port.stream));
      sent := Add(sent, round.item);
      results := results + RoundPublishes(round);
      assert left[|SpellItem(round.item)|..] == words[it.pos..];
      bytesLeft := bytesLeft - 4 * |SpellItem(round.item)|;
    }
    assert words[it.pos..] == [];
    AfterRound(sent, [], allowed);
    verdict := Accepted;
  }
}
