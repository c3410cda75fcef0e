/** The command loop of the terminal visualiser (dsviz.py, main, lines
    216-253): one example is shown, one line is read and dispatched, and the
    loop goes round again until `q`. Input is the sequence of lines the user
    types; running out of lines is the EOFError that input() raises. */
module Navigation {
  import opened Text

  /** A line as the loop dispatches on it: stripped, then lower-cased. */
  function Canonical(line: string): string {
    Lower(Strip(line))
  }

  /** What the loop dispatches on: no longer than the line, no surrounding
      whitespace and no upper-case ASCII letter. */
  lemma CanonicalForm(line: string)
    ensures |Canonical(line)| <= |line|
    ensures Canonical(line) != [] ==>
      !IsSpace(Canonical(line)[0]) && !IsSpace(Canonical(line)[|Canonical(line)| - 1])
    ensures forall i :: 0 <= i < |Canonical(line)| ==> !('A' <= Canonical(line)[i] <= 'Z')
  {
    var t := Strip(line);
    var c := Lower(t);
    var a: nat :| IsStrippedAt(line, t, a, StrBlanks);
    if c != [] {
      LowerCharFacts(t[0]);
      LowerCharFacts(t[|t| - 1]);
    }
    forall i | 0 <= i < |c|
      ensures !('A' <= c[i] <= 'Z')
    {
      LowerCharFacts(t[i]);
    }
  }

  /** The commands the loop tells apart. A jump carries int() of its
      argument, None when int() raises ValueError. */
  datatype Command = Quit | Next | Previous | Jump(target: Option<int>) | Info | Help | Unknown

  /** The if/elif chain of lines 227-253 on cmd, the line once stripped and
      lower-cased. */
  function Classify(cmd: string): (c: Command)
    ensures c == Quit <==> cmd == "q"
    ensures c == Next <==> cmd == "n"
    ensures c == Previous <==> cmd == "p"
    ensures c == Info <==> cmd == "i"
    ensures c == Help <==> cmd == "h"
    ensures c.Jump? <==> StartsWith(cmd, "j ")
    // the argument is the second field of cmd.split(' ')
    ensures c.Jump? ==> c.target == ParseInt(UpToSpace(cmd[2..]))
  {
    if cmd == "q" then Quit
    else if cmd == "n" then Next
    else if cmd == "p" then Previous
    else if StartsWith(cmd, "j ") then Jump(ParseInt(UpToSpace(cmd[2..])))
    else if cmd == "i" then Info
    else if cmd == "h" then Help
    else Unknown
  }

  /** The command a typed line gives (line 225, then the chain). */
  function ParseCommand(line: string): Command {
    Classify(Canonical(line))
  }

  /** Canonical form is a fixed point: stripping and lowering again changes
      nothing. */
  lemma CanonicalIdempotent(line: string)
    ensures Canonical(Canonical(line)) == Canonical(line)
  {
    var t := Strip(line);
    var c := Lower(t);
    if c != [] {
      assert c[0] == LowerChar(t[0]) && c[|c| - 1] == LowerChar(t[|t| - 1]);
    }
    TrimStartOfClean(c, StrBlanks);
    TrimEndOfClean(c, StrBlanks);
    assert Strip(c) == c;
    LowerIdempotent(t);
  }

  /** Surrounding whitespace and letter case never change the command. */
  lemma ParseCommandCanonical(line: string)
    ensures ParseCommand(Canonical(line)) == ParseCommand(line)
  {
    CanonicalIdempotent(line);
  }

  /** `" N "` acts as `n`. */
  lemma SpacedUpperNIsNext()
    ensures ParseCommand(" N ") == Next
  {
    assert TrimStart(" N ", StrBlanks) == "N ";
    assert TrimEnd("N ", StrBlanks) == "N";
    assert Lower("N") == "n";
  }

  /** A bare `j` is not a jump but an unknown command: the jump needs the
      space after it. */
  lemma JumpNeedsArgument(line: string)
    requires Canonical(line) == "j"
    ensures ParseCommand(line) == Unknown
  {
    assert !StartsWith("j", "j ");
  }

  /** `j` followed by the digits of n jumps to example n. */
  lemma JumpTarget(line: string, n: nat)
    requires Canonical(line) == "j " + NatToString(n)
    ensures ParseCommand(line) == Jump(Some(n))
  {
    var cmd := Canonical(line);
    var arg := NatToString(n);
    assert StartsWith(cmd, "j ");
    assert cmd[2..] == arg;
    UpToSpaceOfSpaceless(arg);
    ParseIntOfDecimal(arg);
    NatToStringValue(n);
  }

  /** A jump whose argument has no digit at all is refused: int() raises. */
  lemma NonNumericJump(line: string)
    requires StartsWith(Canonical(line), "j ")
    requires forall i :: 2 <= i < |Canonical(line)| ==> !IsDigit(Canonical(line)[i])
    ensures ParseCommand(line) == Jump(None)
  {
    var cmd := Canonical(line);
    var field := UpToSpace(cmd[2..]);
    assert forall i :: 0 <= i < |field| ==> field[i] == cmd[2 + i];
    ParseIntNeedsDigit(field);
  }

  /** A jump whose argument starts with one of U+001C..U+001F is refused:
      strip() of the line leaves the separator inside, and int() does not
      skip it. */
  lemma SeparatorJumpRefused(line: string)
    requires StartsWith(Canonical(line), "j ")
    requires |Canonical(line)| > 2 && '\U{1c}' <= Canonical(line)[2] <= '\U{1f}'
    ensures ParseCommand(line) == Jump(None)
  {
    var cmd := Canonical(line);
    var field := UpToSpace(cmd[2..]);
    assert field != [] && field[0] == cmd[2];
    ParseIntKeepsSeparator(field);
  }

  /** What one command does to the loop. */
  datatype Step =
    | Stop
    /** carry on at index; pause: an error was shown and the next line is
        read (and discarded) by input("Press Enter to continue...") */
    | Continue(index: int, pause: bool)

  /** A jump to example number target (1-based) is accepted. */
  predicate ValidJump(total: nat, target: Option<int>) {
    target.Some? && 0 <= target.value - 1 < total
  }

  /** The effect of one command at index, for a dataset of total records. */
  function Execute(total: nat, index: int, c: Command): (s: Step)
    ensures s.Stop? <==> c == Quit
    // 0 <= index < total is kept by every command
    ensures s.Continue? && 0 <= index < total ==> 0 <= s.index < total
    // only n, p and an accepted jump move, and each only as far as it says
    ensures s.Continue? && s.index != index ==>
      || (c == Next && s.index == index + 1 && index < total - 1)
      || (c == Previous && s.index == index - 1 && index > 0)
      || (c.Jump? && ValidJump(total, c.target) && s.index == c.target.value - 1)
    // n, p and an accepted jump move whenever they can
    ensures c == Next && index < total - 1 ==> s == Continue(index + 1, false)
    ensures c == Previous && index > 0 ==> s == Continue(index - 1, false)
    ensures c.Jump? && ValidJump(total, c.target) ==> s == Continue(c.target.value - 1, false)
    // an error message and its pause come exactly with an unknown command or a refused jump
    ensures s.Continue? ==> (s.pause <==> c == Unknown || (c.Jump? && !ValidJump(total, c.target)))
  {
    match c
    case Quit => Stop
    case Next => Continue(if index < total - 1 then index + 1 else index, false)
    case Previous => Continue(if index > 0 then index - 1 else index, false)
    case Jump(target) =>
      if ValidJump(total, target) then Continue(target.value - 1, false) else Continue(index, true)
    case Info => Continue(index, false)
    case Help => Continue(index, false)
    case Unknown => Continue(index, true)
  }

  /** `p` on the first example stays there; `j 100` on a ten-example
      dataset is refused, shows an error and pauses. */
  lemma ExecuteExamples()
    ensures Execute(10, 0, Previous) == Continue(0, false)
    ensures Execute(10, 3, Jump(Some(100))) == Continue(3, true)
    ensures Execute(10, 9, Next) == Continue(9, false)
  {
  }

  /** Why the loop ended: `q`, the input ran out (EOFError), or the dataset
      is empty so that showing dataset[0] raised IndexError before any line
      was read. */
  datatype EndReason = QuitCommand | InputEnded | EmptyDataset

  /** The outcome of a session: how it ended, the index it ended at, and the
      index of every example shown, in order. */
  datatype Session = Session(reason: EndReason, index: int, shown: seq<int>)

  /** A session that first shows the given examples and then goes on as s. */
  function After(shown: seq<int>, s: Session): Session {
    Session(s.reason, s.index, shown + s.shown)
  }

  lemma AfterAfter(first: seq<int>, second: seq<int>, s: Session)
    ensures After(first, After(second, s)) == After(first + second, s)
  {
    assert (first + second) + s.shown == first + (second + s.shown);
  }

  /** The commands a run of input lines parses to, one per line. A line
      read by a pause is discarded whatever command it would be. */
  function Commands(lines: seq<string>): (cs: seq<Command>)
    ensures |cs| == |lines| && forall k :: 0 <= k < |lines| ==> cs[k] == ParseCommand(lines[k])
  {
    seq(|lines|, k requires 0 <= k < |lines| => ParseCommand(lines[k]))
  }

  /** The loop, from index on, reading one command per line. */
  function Navigate(total: nat, index: int, cmds: seq<Command>): Session
    requires total == 0 || 0 <= index < total
    decreases |cmds|
  {
    if total == 0 then Session(EmptyDataset, index, [])
    else if cmds == [] then Session(InputEnded, index, [index])
    else
      match Execute(total, index, cmds[0])
      case Stop => Session(QuitCommand, index, [index])
      case Continue(next, pause) =>
        if pause && |cmds| == 1 then Session(InputEnded, next, [index])
        else After([index], Navigate(total, next, cmds[if pause then 2 else 1..]))
  }

  /** How many input lines the session reads: one per command dispatched,
      and one more for each pause that finds a line to discard. */
  function LinesRead(total: nat, index: int, cmds: seq<Command>): (n: nat)
    requires total == 0 || 0 <= index < total
    ensures n <= |cmds|
    decreases |cmds|
  {
    if total == 0 || cmds == [] then 0
    else
      match Execute(total, index, cmds[0])
      case Stop => 1
      case Continue(next, pause) =>
        if pause && |cmds| == 1 then 1
        else
          var used := if pause then 2 else 1;
          used + LinesRead(total, next, cmds[used..])
  }

  /** What a whole session keeps: it ends at once exactly when the dataset
      is empty, current_index never leaves 0..total-1, the first example
      shown is the one it started at, and each example shown reads at least
      one line or ends the session. */
  lemma {:induction false} NavigateInvariant(total: nat, index: int, cmds: seq<Command>)
    requires total == 0 || 0 <= index < total
    ensures Navigate(total, index, cmds).reason == EmptyDataset <==> total == 0
    ensures total > 0 ==> 0 <= Navigate(total, index, cmds).index < total
    ensures forall k :: 0 <= k < |Navigate(total, index, cmds).shown| ==>
      0 <= Navigate(total, index, cmds).shown[k] < total
    ensures total > 0 ==> Navigate(total, index, cmds).shown != [] && Navigate(total, index, cmds).shown[0] == index
    ensures |Navigate(total, index, cmds).shown| <= |cmds| + 1
    decreases |cmds|
  {
    if total > 0 && cmds != [] {
      var step := Execute(total, index, cmds[0]);
      if step.Continue? && !(step.pause && |cmds| == 1) {
        var rest := cmds[if step.pause then 2 else 1..];
        NavigateInvariant(total, step.index, rest);
        assert Navigate(total, index, cmds).shown == [index] + Navigate(total, step.index, rest).shown;
      }
    }
  }

  /** The session ends on `q` only when the last line it reads is a `q`;
      the lines after it are never read. */
  lemma {:induction false} QuitNeedsQuitCommand(total: nat, index: int, cmds: seq<Command>)
    requires total == 0 || 0 <= index < total
    ensures Navigate(total, index, cmds).reason == QuitCommand ==>
      0 < LinesRead(total, index, cmds) && cmds[LinesRead(total, index, cmds) - 1] == Quit
    ensures Navigate(total, index, cmds).reason == QuitCommand ==> Quit in cmds
    decreases |cmds|
  {
    if total > 0 && cmds != [] {
      var step := Execute(total, index, cmds[0]);
      if step.Continue? && !(step.pause && |cmds| == 1) {
        var used := if step.pause then 2 else 1;
        var rest := cmds[used..];
        QuitNeedsQuitCommand(total, step.index, rest);
        if Navigate(total, step.index, rest).reason == QuitCommand {
          var n := LinesRead(total, step.index, rest);
          assert cmds[used + n - 1] == rest[n - 1];
        }
      }
    }
  }

  /** A session that ends for want of input has read every line. */
  lemma {:induction false} InputEndedReadsAll(total: nat, index: int, cmds: seq<Command>)
    requires total == 0 || 0 <= index < total
    ensures Navigate(total, index, cmds).reason == InputEnded ==> LinesRead(total, index, cmds) == |cmds|
    decreases |cmds|
  {
    if total > 0 && cmds != [] {
      var step := Execute(total, index, cmds[0]);
      if step.Continue? && !(step.pause && |cmds| == 1) {
        InputEndedReadsAll(total, step.index, cmds[if step.pause then 2 else 1..]);
      }
    }
  }

  /** A session of only `i` and `h` commands never leaves its starting
      example: the index stays, and every example shown is that one. */
  lemma {:induction false} InfoAndHelpKeepIndex(total: nat, index: int, cmds: seq<Command>)
    requires 0 <= index < total
    requires forall k :: 0 <= k < |cmds| ==> cmds[k] in {Info, Help}
    ensures Navigate(total, index, cmds).index == index
    ensures forall k :: 0 <= k < |Navigate(total, index, cmds).shown| ==> Navigate(total, index, cmds).shown[k] == index
  {
    if cmds != [] {
      var rest := cmds[1..];
      assert forall k :: 0 <= k < |rest| ==> rest[k] == cmds[k + 1];
      InfoAndHelpKeepIndex(total, index, rest);
    }
  }

  /** A `q` ends the session where it stands, whatever follows it. */
  lemma QuitEndsSession(total: nat, index: int, cmds: seq<Command>)
    requires 0 <= index < total && cmds != [] && cmds[0] == Quit
    ensures Navigate(total, index, cmds) == Session(QuitCommand, index, [index])
  {
  }

  /** One turn of the loop: Navigate unfolded once. */
  lemma NavigateStep(total: nat, index: int, cmds: seq<Command>)
    requires 0 <= index < total && cmds != []
    ensures var step := Execute(total, index, cmds[0]);
      Navigate(total, index, cmds) ==
        if step.Stop? then Session(QuitCommand, index, [index])
        else if step.pause && |cmds| == 1 then Session(InputEnded, step.index, [index])
        else After([index], Navigate(total, step.index, cmds[if step.pause then 2 else 1..]))
  {
  }

  /** The turn of the loop that reads line pos, in terms of the rest of the
      session. */
  lemma BrowseTurn(total: nat, cmds: seq<Command>, pos: nat, index: int)
    requires 0 <= index < total && pos < |cmds|
    ensures var step := Execute(total, index, cmds[pos]);
      Navigate(total, index, cmds[pos..]) ==
        if step.Stop? then Session(QuitCommand, index, [index])
        else if step.pause && pos + 1 == |cmds| then Session(InputEnded, step.index, [index])
        else After([index], Navigate(total, step.index, cmds[pos + (if step.pause then 2 else 1)..]))
  {
    var step := Execute(total, index, cmds[pos]);
    NavigateStep(total, index, cmds[pos..]);
    if step.Continue? && !(step.pause && pos + 1 == |cmds|) {
      assert cmds[pos..][if step.pause then 2 else 1..] == cmds[pos + (if step.pause then 2 else 1)..];
    }
  }

  /** The loop of main, from the first example, as dsviz.py runs it: show
      the current example, read a line, dispatch it, and after an error read
      the line that answers "Press Enter to continue...". */
  method Browse(total: nat, lines: seq<string>) returns (s: Session)
    ensures s == Navigate(total, 0, Commands(lines))
  {
    if total == 0 {
      return Session(EmptyDataset, 0, []);
    }
    ghost var cmds := Commands(lines);
    var current := 0;
    var pos := 0;
    var shown: seq<int> := [];
    assert cmds[pos..] == cmds;
    assert Navigate(total, 0, cmds) == After(shown, Navigate(total, current, cmds[pos..]));
    while true
      invariant 0 <= current < total && 0 <= pos <= |lines|
      invariant Navigate(total, 0, cmds) == After(shown, Navigate(total, current, cmds[pos..]))
      decreases |lines| - pos
    {
      ghost var done, here := shown, current;
      shown := shown + [current];
      if pos == |lines| {
        return Session(InputEnded, current, shown);
      }
      var step := Execute(total, current, ParseCommand(lines[pos]));
      BrowseTurn(total, cmds, pos, current);
      pos := pos + 1;
      if step.Stop? {
        return Session(QuitCommand, current, shown);
      }
      current := step.index;
      if step.pause {
        if pos == |lines| {
          return Session(InputEnded, current, shown);
        }
        pos := pos + 1;
      }
      AfterAfter(done, [here], Navigate(total, current, cmds[pos..]));
    }
  }
}
