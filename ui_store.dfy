/** The zustand UI store: the single flag saying whether the sidebar is open. */
module UiStore {
  /** The store's three actions. */
  datatype Command = Toggle | Close | Open

  /** The state an action leaves. */
  function Next(open: bool, c: Command): bool {
    match c
    case Toggle => !open
    case Close => false
    case Open => true
  }

  /** The state a sequence of actions leaves, applied in order. */
  function After(open: bool, cs: seq<Command>): (r: bool)
    decreases |cs|
  {
    if cs == [] then open else After(Next(open, cs[0]), cs[1..])
  }

  /** Two toggles restore the state; closing and opening are idempotent. */
  lemma ActionLaws(open: bool)
    ensures Next(Next(open, Toggle), Toggle) == open
    ensures Next(Next(open, Close), Close) == Next(open, Close)
    ensures Next(Next(open, Open), Open) == Next(open, Open)
  {
  }

  /** The number of toggles in a sequence: the multiplicity of `Toggle` in it. */
  function Toggles(cs: seq<Command>): (n: nat)
    ensures n == multiset(cs)[Toggle]
    ensures n <= |cs|
    decreases |cs|
  {
    if cs == [] then 0
    else
      assert cs == [cs[0]] + cs[1..];
      (if cs[0] == Toggle then 1 else 0) + Toggles(cs[1..])
  }

  /** A sequence of toggles only flips the state once per toggle. */
  lemma {:induction false} OnlyToggles(open: bool, cs: seq<Command>)
    requires forall i :: 0 <= i < |cs| ==> cs[i] == Toggle
    ensures After(open, cs) == (if Toggles(cs) % 2 == 0 then open else !open)
    decreases |cs|
  {
    if cs != [] {
      OnlyToggles(!open, cs[1..]);
    }
  }

  /** After an Open or Close, the earlier history no longer matters. */
  lemma {:induction false} LastSetWins(open: bool, before: seq<Command>, c: Command, after: seq<Command>)
    requires c != Toggle
    ensures After(open, before + [c] + after) == After(c == Open, after)
    decreases |before|
  {
    if before == [] {
      assert before + [c] + after == [c] + after;
      assert ([c] + after)[1..] == after;
    } else {
      assert (before + [c] + after)[1..] == before[1..] + [c] + after;
      LastSetWins(Next(open, before[0]), before[1..], c, after);
    }
  }

  /** The store instance. */
  class Sidebar {
    var open: bool

    /** The sidebar starts closed. */
    constructor ()
      ensures !open
    {
      open := false;
    }

    method ToggleSidebar()
      modifies this
      ensures open == Next(old(open), Toggle)
    {
      open := !open;
    }

    method CloseSidebar()
      modifies this
      ensures open == Next(old(open), Close)
    {
      open := false;
    }

    method OpenSidebar()
      modifies this
      ensures open == Next(old(open), Open)
    {
      open := true;
    }
  }
}
