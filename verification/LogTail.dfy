/** collector.py: tailing a log file.  Each pass reads from the stored offset and handles every complete line; a
    line that is still being written is left for the next pass. */
module LogTail {
  import Bits
  import opened Options
  import opened Subsequence
  import Sequences

  type Byte = Bits.Byte

  const NEWLINE: Byte := 10
  const TAIL_LIMIT := 10485760

  // The end of the first line of b: behind its newline, or the end when there is none.
  function LineEnd(b: seq<Byte>): (n: nat)
    ensures n <= |b| && (b != [] ==> n > 0)
    ensures forall i :: 0 <= i < n - 1 ==> b[i] != NEWLINE
    ensures b != [] && b[n - 1] != NEWLINE ==> n == |b|
  {
    if b == [] then 0 else if b[0] == NEWLINE then 1 else 1 + LineEnd(b[1..])
  }

  predicate Complete(line: seq<Byte>) {
    line != [] && line[|line| - 1] == NEWLINE
  }

  // The unfinished line at the end of b.
  function Rest(b: seq<Byte>): (r: seq<Byte>)
    ensures |r| <= |b|
  {
    if b == [] || b[|b| - 1] == NEWLINE then [] else Rest(b[..|b| - 1]) + [b[|b| - 1]]
  }

  // The complete lines of b, newlines included, and how far they reach.
  function Lines(b: seq<Byte>): seq<seq<Byte>> {
    if b == [] then []
    else Lines(b[..|b| - 1]) + if b[|b| - 1] == NEWLINE then [Rest(b[..|b| - 1]) + [NEWLINE]] else []
  }

  function Reach(b: seq<Byte>): (r: nat)
    ensures r <= |b|
  {
    |b| - |Rest(b)|
  }

  // A text that ends in a complete line.
  ghost predicate Whole(a: seq<Byte>) {
    Rest(a) == []
  }

  // ----- what was read stays read -----

  lemma OneByte(b: seq<Byte>, x: Byte)
    ensures Rest(b + [x]) == if x == NEWLINE then [] else Rest(b) + [x]
    ensures Lines(b + [x]) == Lines(b) + if x == NEWLINE then [Rest(b) + [x]] else []
  {
    assert (b + [x])[..|b|] == b;
  }

  // Reading on gives the lines read so far and those that begin with what was left.
  lemma {:induction false} LinesGrow(b: seq<Byte>, more: seq<Byte>)
    ensures Lines(b + more) == Lines(b) + Lines(Rest(b) + more)
    ensures Rest(b + more) == Rest(Rest(b) + more)
  {
    if more == [] {
      RestOnly(b);
      Sequences.Unit(b);
      Sequences.Unit(Rest(b));
      Sequences.Unit(Lines(b));
    } else {
      var t, x := more[..|more| - 1], more[|more| - 1];
      LinesGrow(b, t);
      Sequences.LastOf(more);
      Sequences.Associates(b, t, [x]);
      Sequences.Associates(Rest(b), t, [x]);
      GrowsAlike(b + t, Rest(b) + t, x, Lines(b));
    }
  }

  lemma GrowsAlike(b: seq<Byte>, c: seq<Byte>, x: Byte, before: seq<seq<Byte>>)
    requires Rest(b) == Rest(c) && Lines(b) == before + Lines(c)
    ensures Rest(b + [x]) == Rest(c + [x]) && Lines(b + [x]) == before + Lines(c + [x])
  {
    OneByte(b, x);
    OneByte(c, x);
    Sequences.Associates(before, Lines(c), if x == NEWLINE then [Rest(c) + [x]] else []);
  }

  // An unfinished line is all rest.
  lemma {:induction false} RestOnly(b: seq<Byte>)
    ensures Lines(Rest(b)) == [] && Rest(Rest(b)) == Rest(b)
  {
    if b != [] && b[|b| - 1] != NEWLINE {
      RestOnly(b[..|b| - 1]);
      OneByte(Rest(b[..|b| - 1]), b[|b| - 1]);
    }
  }

  lemma {:induction false} RestAtEnd(b: seq<Byte>)
    ensures b == b[..Reach(b)] + Rest(b) && b[Reach(b)..] == Rest(b) && Whole(b[..Reach(b)])
  {
    if b != [] {
      var t, x := b[..|b| - 1], b[|b| - 1];
      Sequences.LastOf(b);
      if x == NEWLINE {
        Sequences.TakeDrop(b, |b|);
        Sequences.Unit(b);
      } else {
        RestAtEnd(t);
        Sequences.Associates(t[..Reach(t)], Rest(t), [x]);
        assert b[..Reach(b)] == t[..Reach(t)];
        Sequences.TakeAppended(b[..Reach(b)], Rest(b));
      }
    }
  }

  lemma LinesConcat(a: seq<Byte>, b: seq<Byte>)
    requires Whole(a)
    ensures Lines(a + b) == Lines(a) + Lines(b) && Rest(a + b) == Rest(b)
  {
    LinesGrow(a, b);
    Sequences.Unit(b);
  }

  /** What a pass covers is a text that ends in a complete line, with the same lines; only a rest is left. */
  lemma ReachWhole(b: seq<Byte>)
    ensures Whole(b[..Reach(b)]) && Lines(b[..Reach(b)]) == Lines(b)
    ensures b[Reach(b)..] == Rest(b) && Lines(b[Reach(b)..]) == []
  {
    RestAtEnd(b);
    RestOnly(b);
    LinesConcat(b[..Reach(b)], Rest(b));
    Sequences.Unit(Lines(b[..Reach(b)]));
  }

  // ----- counting lines -----

  // Wherever a text is cut, the complete lines of both parts add up.
  lemma {:induction false} LinesAdd(a: seq<Byte>, b: seq<Byte>)
    ensures |Lines(a + b)| == |Lines(a)| + |Lines(b)|
  {
    if b == [] {
      assert a + b == a;
    } else {
      LinesAdd(a, b[..|b| - 1]);
      assert (a + b)[..|a + b| - 1] == a + b[..|b| - 1];
    }
  }

  lemma CountCut(b: seq<Byte>, n: nat)
    requires n <= |b|
    ensures |Lines(b)| == |Lines(b[..n])| + |Lines(b[n..])|
  {
    LinesAdd(b[..n], b[n..]);
    Sequences.TakeDrop(b, n);
  }

  // A text behind one that ends in a complete line.
  lemma CutWhole(b: seq<Byte>, n: nat)
    requires n <= |b| && Whole(b[..n])
    ensures Lines(b) == Lines(b[..n]) + Lines(b[n..]) && Rest(b) == Rest(b[n..])
  {
    LinesConcat(b[..n], b[n..]);
    Sequences.TakeDrop(b, n);
  }

  // The first line, when it is complete, is the first of the lines.
  lemma FirstLine(b: seq<Byte>, n: nat)
    requires b != [] && n == LineEnd(b)
    ensures Complete(b[..n]) ==> Lines(b) == [b[..n]] + Lines(b[n..]) && Rest(b) == Rest(b[n..])
    ensures !Complete(b[..n]) ==> Lines(b) == [] && Rest(b) == b
  {
    NoNewline(b[..n - 1]);
    assert b[..n] == b[..n - 1] + [b[n - 1]];
    OneByte(b[..n - 1], b[n - 1]);
    if b[n - 1] == NEWLINE {
      CutWhole(b, n);
    } else {
      assert b[..n] == b;
    }
  }

  // Bytes that are no newline only add to the rest.
  lemma {:induction false} Unfinished(a: seq<Byte>, t: seq<Byte>)
    requires forall i :: 0 <= i < |t| ==> t[i] != NEWLINE
    ensures Lines(a + t) == Lines(a) && Rest(a + t) == Rest(a) + t
  {
    if t == [] {
      Sequences.Unit(a);
      Sequences.Unit(Rest(a));
    } else {
      var t', x := t[..|t| - 1], t[|t| - 1];
      Unfinished(a, t');
      OneByte(a + t', x);
      Sequences.LastOf(t);
      Sequences.Associates(a, t', [x]);
      Sequences.Associates(Rest(a), t', [x]);
      Sequences.Unit(Lines(a));
    }
  }

  lemma NoNewline(b: seq<Byte>)
    requires forall i :: 0 <= i < |b| ==> b[i] != NEWLINE
    ensures Lines(b) == [] && Rest(b) == b
  {
    Unfinished([], b);
    Sequences.Unit(b);
  }

  // ----- the collector -----

  datatype File = File(inode: int, content: seq<Byte>)

  // The stored inode and offset, and every line handled so far.
  datatype State = State(stored: Option<(int, nat)>, handled: seq<seq<Byte>>)

  predicate IsFresh(s: State, f: File) {
    s.stored.None? || s.stored.value.0 != f.inode || s.stored.value.1 > |f.content|
  }

  // A file met for the first time is read from its last ten megabytes, after the line cut by that.
  function FirstOffset(f: File): (n: nat)
    ensures n <= |f.content|
  {
    var start := if |f.content| > TAIL_LIMIT then |f.content| - TAIL_LIMIT else 0;
    if start == 0 then 0 else start + LineEnd(f.content[start..])
  }

  function Begin(s: State, f: File): (k: nat)
    ensures k <= |f.content|
  {
    if IsFresh(s, f) then FirstOffset(f) else s.stored.value.1
  }

  // A pass from offset k.
  function CollectFrom(s: State, f: File, k: nat): State
    requires k <= |f.content|
  {
    State(Some((f.inode, k + Reach(f.content[k..]))), s.handled + Lines(f.content[k..]))
  }

  function Collect(s: State, f: File): State {
    CollectFrom(s, f, Begin(s, f))
  }

  // The offset stored after a pass.
  function End(s: State, f: File): (e: nat)
    ensures e <= |f.content|
  {
    Begin(s, f) + Reach(f.content[Begin(s, f)..])
  }

  // A pass from offset k ends behind the last complete line.
  lemma PassEnds(c: seq<Byte>, k: nat)
    requires k <= |c|
    ensures Lines(c[k + Reach(c[k..])..]) == []
  {
    ReachWhole(c[k..]);
    Behind(c, [], k, Reach(c[k..]));
  }

  // Behind complete lines the text reaches as far as it does alone.
  lemma ReachBehind(c: seq<Byte>, k: nat)
    requires k <= |c| && Whole(c[..k])
    ensures k + Reach(c[k..]) == Reach(c)
  {
    CutWhole(c, k);
  }

  lemma PassWhole(c: seq<Byte>, k: nat, n: nat)
    requires k <= |c| && Whole(c[..k]) && n == k + Reach(c[k..])
    ensures Whole(c[..n]) && Lines(c) == Lines(c[..k]) + Lines(c[k..])
  {
    ReachBehind(c, k);
    WholeAt(c, n);
    CutWhole(c, k);
  }

  lemma WholeAt(c: seq<Byte>, n: nat)
    requires n == Reach(c)
    ensures Whole(c[..n])
  {
    ReachWhole(c);
  }

  /** After a pass only an unfinished line is left and the file counts as known; where the pass began at the start
      of a line it ends at one, and it handled exactly the lines from there on, once and in order. */
  lemma CollectCatchesUp(s: State, f: File)
    ensures !IsFresh(Collect(s, f), f) && Lines(f.content[End(s, f)..]) == []
    ensures Whole(f.content[..Begin(s, f)]) ==>
              && Whole(f.content[..End(s, f)])
              && s.handled <= Collect(s, f).handled
              && Lines(f.content) == Lines(f.content[..Begin(s, f)]) + Collect(s, f).handled[|s.handled|..]
  {
    FromCatchesUp(s, f, Begin(s, f));
  }

  lemma FromCatchesUp(s: State, f: File, k: nat)
    requires k <= |f.content|
    ensures var t, n := CollectFrom(s, f, k), k + Reach(f.content[k..]);
            && Lines(f.content[n..]) == [] && s.handled <= t.handled
            && (Whole(f.content[..k]) ==>
                  Whole(f.content[..n]) && Lines(f.content) == Lines(f.content[..k]) + t.handled[|s.handled|..])
  {
    PassEnds(f.content, k);
    Appended(s.handled, Lines(f.content[k..]));
    if Whole(f.content[..k]) {
      PassWhole(f.content, k, k + Reach(f.content[k..]));
    }
  }

  lemma Appended<T>(a: seq<T>, b: seq<T>)
    ensures a <= a + b && (a + b)[|a|..] == b
  {}

  /** Passes can be taken at any time: a pass now and one when the file has grown leave the state that a single
      later pass leaves, if both find the same place to begin. */
  lemma Resumable(s: State, f: File, more: seq<Byte>)
    requires Begin(s, f.(content := f.content + more)) == Begin(s, f)
    ensures var g := f.(content := f.content + more);
            Collect(Collect(s, f), g) == Collect(s, g)
  {
    var k := Begin(s, f);
    KnownAgain(Collect(s, f), f, f.(content := f.content + more), k + Reach(f.content[k..]));
    ResumedFrom(s, f, more, k);
  }

  lemma ResumedFrom(s: State, f: File, more: seq<Byte>, k: nat)
    requires k <= |f.content|
    ensures var g, n := f.(content := f.content + more), k + Reach(f.content[k..]);
            CollectFrom(CollectFrom(s, f, k), g, n) == CollectFrom(s, g, k)
  {
    ReadOn(f.content, more, k);
    Sequences.Associates(s.handled, Lines(f.content[k..]), Lines((f.content + more)[k + Reach(f.content[k..])..]));
  }

  // A pass over a known file reads on from the stored offset.
  lemma KnownAgain(t: State, f: File, g: File, n: nat)
    requires t.stored == Some((f.inode, n)) && g.inode == f.inode && n <= |f.content| <= |g.content|
    ensures Collect(t, g) == CollectFrom(t, g, n)
  {}

  lemma ReadOn(c: seq<Byte>, more: seq<Byte>, k: nat)
    requires k <= |c|
    ensures var n := k + Reach(c[k..]);
            && Lines((c + more)[k..]) == Lines(c[k..]) + Lines((c + more)[n..])
            && k + Reach((c + more)[k..]) == n + Reach((c + more)[n..])
  {
    ReachWhole(c[k..]);
    Behind(c, more, k, Reach(c[k..]));
    LinesGrow(c[k..], more);
  }

  lemma Behind(c: seq<Byte>, more: seq<Byte>, k: nat, r: nat)
    requires k + r <= |c|
    ensures (c + more)[k..] == c[k..] + more && (c + more)[k + r..] == c[k..][r..] + more && c[k + r..] == c[k..][r..]
  {}

  // ----- runs -----

  // The file grows; another file, or another content, takes its place; the collector makes a pass.
  datatype Action = Grow(more: seq<Byte>) | Rotate(inode: int, content: seq<Byte>) | Pass

  function Grown(f: File, more: seq<Byte>): File {
    f.(content := f.content + more)
  }

  function Step(s: State, f: File, a: Action): (State, File) {
    match a
    case Grow(more) => (s, Grown(f, more))
    case Rotate(inode, content) => (s, File(inode, content))
    case Pass => (Collect(s, f), f)
  }

  function Run(start: File, actions: seq<Action>): (State, File) {
    if actions == [] then (State(None, []), start)
    else
      var (s, f) := Run(start, actions[..|actions| - 1]);
      Step(s, f, actions[|actions| - 1])
  }

  // The complete lines of all files that were replaced.
  function Past(start: File, actions: seq<Action>): seq<seq<Byte>> {
    if actions == [] then []
    else
      var before, a := actions[..|actions| - 1], actions[|actions| - 1];
      Past(start, before) + if a.Rotate? then Lines(Run(start, before).1.content) else []
  }

  /** Every complete line ever written, file by file. */
  function Written(start: File, actions: seq<Action>): seq<seq<Byte>> {
    Past(start, actions) + Lines(Run(start, actions).1.content)
  }

  // The complete lines of the file that no pass has handled.
  function Unhandled(s: State, f: File): seq<seq<Byte>> {
    if IsFresh(s, f) then Lines(f.content) else Lines(f.content[s.stored.value.1..])
  }

  // The lines in front of the stored offset of a file that is taken for the known one.
  function PassedOver(s: State, f: File): nat {
    if IsFresh(s, f) then 0 else |Lines(f.content[..s.stored.value.1])|
  }

  /** The complete lines given up in a step: all unhandled ones of a replaced file; those in front of the stored
      offset of content that is taken for the known file; and on a first pass those before the last ten megabytes. */
  function Skips(s: State, f: File, a: Action): nat {
    match a
    case Grow(more) => if IsFresh(s, f) then PassedOver(s, Grown(f, more)) else 0
    case Rotate(inode, content) => |Unhandled(s, f)| + PassedOver(s, File(inode, content))
    case Pass => if IsFresh(s, f) then |Lines(f.content[..FirstOffset(f)])| else 0
  }

  function Skipped(start: File, actions: seq<Action>): nat {
    if actions == [] then 0
    else
      var before, a := actions[..|actions| - 1], actions[|actions| - 1];
      var (s, f) := Run(start, before);
      Skipped(start, before) + Skips(s, f, a)
  }

  // Lines written so far are handled, still unhandled or skipped.
  ghost predicate Balanced(past: nat, s: State, f: File, skipped: nat) {
    past + |Lines(f.content)| == |s.handled| + |Unhandled(s, f)| + skipped
  }

  // The lines of a file are those passed over and those unhandled.
  lemma TwoParts(s: State, f: File)
    ensures |Lines(f.content)| == PassedOver(s, f) + |Unhandled(s, f)|
  {
    if !IsFresh(s, f) {
      CountCut(f.content, s.stored.value.1);
    }
  }

  lemma GrowBalanced(past: nat, s: State, f: File, skipped: nat, more: seq<Byte>)
    requires Balanced(past, s, f, skipped)
    ensures Balanced(past, s, Grown(f, more), skipped + Skips(s, f, Grow(more)))
  {
    var g := Grown(f, more);
    TwoParts(s, f);
    TwoParts(s, g);
    if !IsFresh(s, f) {
      var n := s.stored.value.1;
      assert g.content[..n] == f.content[..n];
    }
  }

  lemma PassBalanced(past: nat, s: State, f: File, skipped: nat)
    requires Balanced(past, s, f, skipped)
    ensures Balanced(past, Collect(s, f), f, skipped + Skips(s, f, Pass))
  {
    NothingLeft(s, f);
    if IsFresh(s, f) {
      CountCut(f.content, FirstOffset(f));
    }
  }

  lemma NothingLeft(s: State, f: File)
    ensures Unhandled(Collect(s, f), f) == []
    ensures Collect(s, f).handled == s.handled + Lines(f.content[Begin(s, f)..])
  {
    CollectCatchesUp(s, f);
  }

  lemma StepBalanced(past: nat, s: State, f: File, skipped: nat, a: Action)
    requires Balanced(past, s, f, skipped)
    ensures var (t, g) := Step(s, f, a);
            Balanced(past + if a.Rotate? then |Lines(f.content)| else 0, t, g, skipped + Skips(s, f, a))
  {
    match a {
      case Grow(more) => GrowBalanced(past, s, f, skipped, more);
      case Rotate(inode, content) => TwoParts(s, File(inode, content));
      case Pass => PassBalanced(past, s, f, skipped);
    }
  }

  /** In every run, whatever grows, is replaced or truncated, and however passes fall: the lines written are as many
      as those handled, those a next pass would find and those skipped. */
  lemma {:induction false} RunCounts(start: File, actions: seq<Action>)
    ensures var (s, f) := Run(start, actions);
            |Written(start, actions)| == |s.handled| + |Unhandled(s, f)| + Skipped(start, actions)
  {
    if actions != [] {
      var before, a := actions[..|actions| - 1], actions[|actions| - 1];
      RunCounts(start, before);
      var (s, f) := Run(start, before);
      StepBalanced(|Past(start, before)|, s, f, Skipped(start, before), a);
    }
  }

  // ----- which lines, and in what order -----

  // The next pass begins at the start of a line.
  ghost predicate Aligned(s: State, f: File) {
    Whole(f.content[..Begin(s, f)])
  }

  // Where a file is taken for the known one, the stored offset is at the start of a line.
  ghost predicate AtLine(s: State, f: File) {
    !IsFresh(s, f) ==> Whole(f.content[..s.stored.value.1])
  }

  // The last ten megabytes of the file lie inside one line.
  predicate Cuts(f: File) {
    |f.content| > TAIL_LIMIT && NEWLINE !in f.content[|f.content| - TAIL_LIMIT..]
  }

  /** What the surroundings do: no other content is taken for the known file with the stored offset inside one of its
      lines, and no file is first met while its last ten megabytes lie inside one line. */
  ghost predicate Orderly(s: State, f: File, a: Action) {
    match a
    case Grow(more) => IsFresh(s, f) ==> AtLine(s, Grown(f, more))
    case Rotate(inode, content) => AtLine(s, File(inode, content))
    case Pass => IsFresh(s, f) ==> !Cuts(f)
  }

  ghost predicate OrderlyRun(start: File, actions: seq<Action>) {
    forall n :: 0 <= n < |actions| ==> Orderly(Run(start, actions[..n]).0, Run(start, actions[..n]).1, actions[n])
  }

  lemma LineEnds(b: seq<Byte>)
    requires b != []
    ensures b[LineEnd(b) - 1] == NEWLINE <==> NEWLINE in b
    ensures NEWLINE !in b ==> LineEnd(b) == |b|
  {}

  // A first pass begins at the start of a line exactly when it does not fall into the last one.
  lemma CutsExactly(f: File)
    ensures Whole(f.content[..FirstOffset(f)]) <==> !Cuts(f)
    ensures Cuts(f) ==> FirstOffset(f) == |f.content| && Rest(f.content) != []
  {
    var start := |f.content| - TAIL_LIMIT;
    if start > 0 {
      CutOrWhole(f.content, start);
    } else {
      assert FirstOffset(f) == 0;
    }
  }

  lemma CutOrWhole(c: seq<Byte>, start: nat)
    requires start < |c|
    ensures var b := c[start..];
            && (Whole(c[..start + LineEnd(b)]) <==> NEWLINE in b)
            && (NEWLINE !in b ==> LineEnd(b) == |b| && Rest(c) != [])
  {
    var b := c[start..];
    var k := start + LineEnd(b);
    LineEnds(b);
    assert c[..k][k - 1] == b[LineEnd(b) - 1];
    assert c[|c| - 1] == b[|b| - 1];
  }

  // Passes keep the stored offset at the start of a line.
  lemma StepAtLine(s: State, f: File, a: Action)
    requires AtLine(s, f) && Orderly(s, f, a)
    ensures AtLine(Step(s, f, a).0, Step(s, f, a).1)
    ensures a == Pass ==> Aligned(s, f)
  {
    match a {
      case Grow(more) =>
        if !IsFresh(s, f) {
          TakeGrown(f.content, more, s.stored.value.1);
        }
      case Rotate(_, _) =>
      case Pass => PassAtLine(s, f);
    }
  }

  lemma TakeGrown(c: seq<Byte>, more: seq<Byte>, n: nat)
    requires n <= |c|
    ensures (c + more)[..n] == c[..n]
  {}

  lemma PassAtLine(s: State, f: File)
    requires AtLine(s, f) && (IsFresh(s, f) ==> !Cuts(f))
    ensures Aligned(s, f) && AtLine(Collect(s, f), f)
  {
    CutsExactly(f);
    AlignedKeeps(s, f);
  }

  lemma AlignedKeeps(s: State, f: File)
    requires Aligned(s, f)
    ensures AtLine(Collect(s, f), f)
  {
    PassWhole(f.content, Begin(s, f), End(s, f));
  }

  // What is handled, with what the next pass will handle, is part of what was written, in order.
  ghost predicate InOrder(past: seq<seq<Byte>>, s: State, f: File) {
    if IsFresh(s, f) then Sub(s.handled, past) else Sub(s.handled + Unhandled(s, f), past + Lines(f.content))
  }

  lemma KnownInOrder(past: seq<seq<Byte>>, s: State, f: File)
    requires Sub(s.handled, past) && !IsFresh(s, f) && AtLine(s, f)
    ensures InOrder(past, s, f)
  {
    var n := s.stored.value.1;
    CutWhole(f.content, n);
    BackSub(Lines(f.content[..n]), Lines(f.content[n..]));
    Concat(s.handled, past, Unhandled(s, f), Lines(f.content));
  }

  lemma BackSub<T>(a: seq<T>, b: seq<T>)
    ensures Sub(b, a + b) && Sub(a, a + b)
  {
    Nothing(a);
    Refl(b);
    Concat([], a, b, b);
    assert [] + b == b;
    Refl(a);
    Nothing(b);
    Concat(a, a, [], b);
    assert a + [] == a;
  }

  // Unhandled lines and all lines gain the same by growing.
  lemma GrowKnown(past: seq<seq<Byte>>, s: State, f: File, more: seq<Byte>)
    requires InOrder(past, s, f) && !IsFresh(s, f) && AtLine(s, f)
    ensures InOrder(past, s, Grown(f, more))
  {
    var c, n := f.content, s.stored.value.1;
    var x := Lines(Rest(c) + more);
    SameGain(c, n, more);
    Refl(x);
    Concat(s.handled + Lines(c[n..]), past + Lines(c), x, x);
    Sequences.Associates(s.handled, Lines(c[n..]), x);
    Sequences.Associates(past, Lines(c), x);
  }

  lemma SameGain(c: seq<Byte>, n: nat, more: seq<Byte>)
    requires n <= |c| && Whole(c[..n])
    ensures var x := Lines(Rest(c) + more);
            Lines(c + more) == Lines(c) + x && Lines((c + more)[n..]) == Lines(c[n..]) + x
  {
    LinesGrow(c, more);
    CutWhole(c, n);
    LinesGrow(c[n..], more);
    Behind(c, more, n, 0);
  }

  // Everything handled is in the past once the file is replaced.
  lemma HandledIsPast(past: seq<seq<Byte>>, s: State, f: File)
    requires InOrder(past, s, f)
    ensures Sub(s.handled, past + Lines(f.content))
    ensures Sub(s.handled + Unhandled(s, f), past + Lines(f.content))
  {
    BackSub(s.handled, Unhandled(s, f));
    if IsFresh(s, f) {
      Refl(Lines(f.content));
      Concat(s.handled, past, Lines(f.content), Lines(f.content));
    }
    Trans(s.handled, s.handled + Unhandled(s, f), past + Lines(f.content));
  }

  lemma FirstPassInOrder(past: seq<seq<Byte>>, s: State, f: File)
    requires Sub(s.handled, past) && Aligned(s, f)
    ensures Sub(Collect(s, f).handled, past + Lines(f.content))
  {
    var k := Begin(s, f);
    CutWhole(f.content, k);
    BackSub(Lines(f.content[..k]), Lines(f.content[k..]));
    Concat(s.handled, past, Lines(f.content[k..]), Lines(f.content));
  }

  lemma PassInOrder(past: seq<seq<Byte>>, s: State, f: File)
    requires InOrder(past, s, f) && Aligned(s, f)
    ensures InOrder(past, Collect(s, f), f)
  {
    var t := Collect(s, f);
    CollectCatchesUp(s, f);
    if IsFresh(s, f) {
      FirstPassInOrder(past, s, f);
    }
    assert Unhandled(t, f) == [] && t.handled + [] == t.handled;
  }

  lemma StepInOrder(past: seq<seq<Byte>>, s: State, f: File, a: Action)
    requires InOrder(past, s, f) && AtLine(s, f) && Orderly(s, f, a)
    ensures InOrder(past + if a.Rotate? then Lines(f.content) else [], Step(s, f, a).0, Step(s, f, a).1)
  {
    assert past + [] == past;
    StepAtLine(s, f, a);
    match a {
      case Grow(more) =>
        if !IsFresh(s, f) {
          GrowKnown(past, s, f, more);
        } else if !IsFresh(s, Grown(f, more)) {
          KnownInOrder(past, s, Grown(f, more));
        }
      case Rotate(inode, content) =>
        HandledIsPast(past, s, f);
        if !IsFresh(s, File(inode, content)) {
          KnownInOrder(past + Lines(f.content), s, File(inode, content));
        }
      case Pass => PassInOrder(past, s, f);
    }
  }

  lemma {:induction false} RunInOrder(start: File, actions: seq<Action>)
    requires OrderlyRun(start, actions)
    ensures InOrder(Past(start, actions), Run(start, actions).0, Run(start, actions).1)
    ensures AtLine(Run(start, actions).0, Run(start, actions).1)
  {
    if actions != [] {
      var m := |actions| - 1;
      OrderlyBefore(start, actions);
      RunInOrder(start, actions[..m]);
      var (s, f) := Run(start, actions[..m]);
      StepInOrder(Past(start, actions[..m]), s, f, actions[m]);
      StepAtLine(s, f, actions[m]);
    }
  }

  lemma OrderlyBefore(start: File, actions: seq<Action>)
    requires actions != [] && OrderlyRun(start, actions)
    ensures var m := |actions| - 1;
            && OrderlyRun(start, actions[..m])
            && Orderly(Run(start, actions[..m]).0, Run(start, actions[..m]).1, actions[m])
  {
    var m := |actions| - 1;
    forall n | 0 <= n < m
      ensures actions[..m][..n] == actions[..n]
    {
      Shorter(actions, m, n);
    }
  }

  lemma Shorter<T>(a: seq<T>, m: nat, n: nat)
    requires n <= m <= |a|
    ensures a[..m][..n] == a[..n]
  {}

  lemma {:induction false} SameLength<T>(a: seq<T>, b: seq<T>)
    requires Sub(a, b)
    ensures |a| <= |b| && (|a| == |b| ==> a == b)
    decreases |b|
  {
    if a != [] {
      var b' := b[..|b| - 1];
      if a[|a| - 1] == b[|b| - 1] && Sub(a[..|a| - 1], b') {
        SameLength(a[..|a| - 1], b');
      } else {
        SameLength(a, b');
      }
    }
  }

  /** In every orderly run: what was handled, followed by what a next pass would find, is part of what was written, in
      order, no line twice; and it is all of it exactly when nothing was skipped. */
  lemma RunTracks(start: File, actions: seq<Action>)
    requires OrderlyRun(start, actions)
    ensures var (s, f) := Run(start, actions);
            && Sub(s.handled + Unhandled(s, f), Written(start, actions))
            && (s.handled + Unhandled(s, f) == Written(start, actions) <==> Skipped(start, actions) == 0)
  {
    var (s, f) := Run(start, actions);
    RunInOrder(start, actions);
    HandledIsPast(Past(start, actions), s, f);
    RunCounts(start, actions);
    SameLength(s.handled + Unhandled(s, f), Written(start, actions));
  }

  /** Nothing is skipped exactly when no step skips: every file was read up before it was replaced, none was taken
      for a known one, and none had lines before its last ten megabytes when first met. */
  lemma {:induction false} NothingSkipped(start: File, actions: seq<Action>)
    ensures Skipped(start, actions) == 0 <==>
              forall n :: 0 <= n < |actions| ==> StepSkips(start, actions, n) == 0
  {
    if actions != [] {
      var m := |actions| - 1;
      NothingSkipped(start, actions[..m]);
      forall n | 0 <= n < m
        ensures StepSkips(start, actions[..m], n) == StepSkips(start, actions, n)
      {
        assert actions[..m][..n] == actions[..n];
      }
      assert StepSkips(start, actions, m) == Skips(Run(start, actions[..m]).0, Run(start, actions[..m]).1, actions[m]);
    }
  }

  function StepSkips(start: File, actions: seq<Action>, n: nat): nat
    requires n < |actions|
  {
    var (s, f) := Run(start, actions[..n]);
    Skips(s, f, actions[n])
  }

  // ----- what the collector does not do -----

  lemma LineAB()
    ensures Lines([65, 10]) == [[65, 10]]
  {
    EndsLine([], [65, 10]);
    Sequences.Unit([65, 10]);
  }

  const LOSING: seq<Action> := [Pass, Grow([65, 10]), Rotate(2, [])]

  lemma LosingRun()
    ensures Run(File(1, []), LOSING) == (State(Some((1, 0)), []), File(2, []))
    ensures Past(File(1, []), LOSING) == [[65, 10]]
  {
    var start := File(1, []);
    LosingPass(start);
    LosingGrowth(start);
    OneMore(start, [Pass, Grow([65, 10])], Rotate(2, []));
    LineAB();
    assert [Pass, Grow([65, 10])] + [Rotate(2, [])] == LOSING;
  }

  lemma LosingPass(start: File)
    requires start == File(1, [])
    ensures Run(start, [Pass]) == (State(Some((1, 0)), []), start) && Past(start, [Pass]) == []
  {
    OneMore(start, [], Pass);
    NothingThere(State(None, []), start);
    assert [] + [Pass] == [Pass];
  }

  lemma LosingGrowth(start: File)
    requires start == File(1, []) && Run(start, [Pass]) == (State(Some((1, 0)), []), start) && Past(start, [Pass]) == []
    ensures Run(start, [Pass, Grow([65, 10])]) == (State(Some((1, 0)), []), File(1, [65, 10]))
    ensures Past(start, [Pass, Grow([65, 10])]) == []
  {
    OneMore(start, [Pass], Grow([65, 10]));
    assert [Pass] + [Grow([65, 10])] == [Pass, Grow([65, 10])] && start.content + [65, 10] == [65, 10];
  }

  /** A line written between the last pass and a rotation is never handled. */
  lemma LostAtRotation()
    ensures var start, actions := File(1, []), LOSING + [Pass];
            Run(start, actions).0.handled == [] && Written(start, actions) == [[65, 10]] && Skipped(start, actions) == 1
  {
    var start := File(1, []);
    LosingRun();
    OneMore(start, LOSING, Pass);
    NothingThere(State(Some((1, 0)), []), File(2, []));
    RunCounts(start, LOSING + [Pass]);
  }

  lemma NothingThere(s: State, f: File)
    requires f.content == [] && IsFresh(s, f)
    ensures Collect(s, f) == State(Some((f.inode, 0)), s.handled)
  {
    assert s.handled + [] == s.handled;
  }

  lemma OneMore(start: File, actions: seq<Action>, a: Action)
    ensures var (s, f) := Run(start, actions);
            && Run(start, actions + [a]) == Step(s, f, a)
            && Past(start, actions + [a]) == Past(start, actions) + if a.Rotate? then Lines(f.content) else []
  {
    assert (actions + [a])[..|actions|] == actions;
  }

  /** A pass over a file whose first n bytes were handled before: it handles the lines between where it begins and n
      again, and no line twice exactly when it begins at n.  So a file that comes back under an inode other than the
      stored one is handled again from its first line. */
  lemma HandledAgain(s: State, f: File, n: nat)
    requires AtLine(s, f) && (IsFresh(s, f) ==> !Cuts(f)) && Begin(s, f) <= n <= |f.content| && Whole(f.content[..n])
    ensures Collect(s, f).handled == s.handled + Lines(f.content[Begin(s, f)..n]) + Lines(f.content[n..])
    ensures Lines(f.content[Begin(s, f)..n]) == [] <==> Begin(s, f) == n
    ensures s.stored.Some? && s.stored.value.0 != f.inode && |f.content| <= TAIL_LIMIT ==> Begin(s, f) == 0
  {
    var c, k := f.content, Begin(s, f);
    CutsExactly(f);
    Between(c, k, n);
    Sequences.Associates(s.handled, Lines(c[k..n]), Lines(c[n..]));
  }

  // Between two starts of lines there are only whole lines.
  lemma Between(c: seq<Byte>, k: nat, n: nat)
    requires k <= n <= |c| && Whole(c[..k]) && Whole(c[..n])
    ensures Lines(c[k..]) == Lines(c[k..n]) + Lines(c[n..]) && (Lines(c[k..n]) == [] <==> k == n)
  {
    var b := c[k..n];
    assert c[k..] == b + c[n..];
    LinesGrow(b, c[n..]);
    if k < n {
      assert b[|b| - 1] == c[..n][n - 1];
      Sequences.Unit(c[n..]);
    } else {
      Sequences.Unit(c[n..]);
    }
  }

  // One line: its only newline is its last byte.
  predicate IsLine(line: seq<Byte>) {
    Complete(line) && forall i :: 0 <= i < |line| - 1 ==> line[i] != NEWLINE
  }

  /** The line that is being written when a file is first met is handled whole, once it ends, exactly unless the last
      ten megabytes lie inside it; then its end is handled as a line. */
  lemma CutLine(s: State, f: File, more: seq<Byte>)
    requires IsFresh(s, f) && IsLine(more)
    ensures Lines(Grown(f, more).content) == Lines(f.content) + [Rest(f.content) + more]
    ensures Collect(Collect(s, f), Grown(f, more)).handled
            == Collect(s, f).handled + [if Cuts(f) then more else Rest(f.content) + more]
    ensures Cuts(f) ==> more != Rest(f.content) + more
  {
    CutsExactly(f);
    LineGrown(f.content, more);
    if Cuts(f) {
      EndCut(s, f, more);
    } else {
      EndWhole(s, f, more);
    }
  }

  lemma EndCut(s: State, f: File, more: seq<Byte>)
    requires IsFresh(s, f) && IsLine(more) && FirstOffset(f) == |f.content|
    ensures Collect(Collect(s, f), Grown(f, more)).handled == Collect(s, f).handled + [more]
  {
    var c := f.content;
    AtFileEnd(s, f);
    EndsLine([], more);
    Sequences.TakeAppended(c, more);
    Sequences.Unit(more);
    KnownAgain(Collect(s, f), f, Grown(f, more), |c|);
  }

  lemma EndWhole(s: State, f: File, more: seq<Byte>)
    requires IsFresh(s, f) && IsLine(more) && Whole(f.content[..FirstOffset(f)])
    ensures Collect(Collect(s, f), Grown(f, more)).handled == Collect(s, f).handled + [Rest(f.content) + more]
  {
    ReachBehind(f.content, FirstOffset(f));
    KnownAgain(Collect(s, f), f, Grown(f, more), Reach(f.content));
    RestAndMore(f.content, more);
  }

  lemma RestAndMore(c: seq<Byte>, more: seq<Byte>)
    requires IsLine(more)
    ensures Lines((c + more)[Reach(c)..]) == [Rest(c) + more]
  {
    ReachWhole(c);
    Behind(c, more, Reach(c), 0);
    RestOnly(c);
    EndsLine(Rest(c), more);
  }

  lemma LineGrown(c: seq<Byte>, more: seq<Byte>)
    requires IsLine(more)
    ensures Lines(c + more) == Lines(c) + [Rest(c) + more]
  {
    LinesGrow(c, more);
    RestOnly(c);
    EndsLine(Rest(c), more);
  }

  lemma AtFileEnd(s: State, f: File)
    requires IsFresh(s, f) && FirstOffset(f) == |f.content|
    ensures Collect(s, f) == State(Some((f.inode, |f.content|)), s.handled)
  {
    assert f.content[|f.content|..] == [] && s.handled + [] == s.handled;
  }

  // An unfinished line and its end make one line.
  lemma EndsLine(a: seq<Byte>, more: seq<Byte>)
    requires Lines(a) == [] && Rest(a) == a && IsLine(more)
    ensures Lines(a + more) == [a + more]
  {
    var t := more[..|more| - 1];
    Unfinished(a, t);
    OneByte(a + t, NEWLINE);
    Sequences.LastOf(more);
    Sequences.Associates(a, t, [NEWLINE]);
    Sequences.Unit([a + more]);
  }

  // What is handled so far and what the rest of the file holds.
  ghost predicate Going(content: seq<Byte>, start: nat, offset: nat, before: seq<seq<Byte>>, handled: seq<seq<Byte>>)
    requires start <= offset <= |content|
  {
    && handled + Lines(content[offset..]) == before + Lines(content[start..])
    && offset + Reach(content[offset..]) == start + Reach(content[start..])
  }

  lemma NextLine(content: seq<Byte>, start: nat, offset: nat, before: seq<seq<Byte>>, handled: seq<seq<Byte>>)
    requires start <= offset < |content| && Going(content, start, offset, before, handled)
    ensures var rest := content[offset..];
            var n := LineEnd(rest);
            if Complete(rest[..n]) then Going(content, start, offset + n, before, handled + [rest[..n]])
            else handled == before + Lines(content[start..]) && offset == start + Reach(content[start..])
  {
    var rest := content[offset..];
    var n := LineEnd(rest);
    FirstLine(rest, n);
    if Complete(rest[..n]) {
      assert content[offset + n..] == rest[n..];
      Shift(handled, rest[..n], Lines(rest[n..]));
    } else {
      assert handled + [] == handled;
    }
  }

  lemma Shift(a: seq<seq<Byte>>, x: seq<Byte>, b: seq<seq<Byte>>)
    ensures a + ([x] + b) == (a + [x]) + b
  {}

  lemma AtEnd(content: seq<Byte>, start: nat, offset: nat, before: seq<seq<Byte>>, handled: seq<seq<Byte>>)
    requires start <= offset <= |content|
    ensures offset == |content| && Going(content, start, offset, before, handled) ==>
              handled == before + Lines(content[start..]) && offset == start + Reach(content[start..])
  {
    if offset == |content| {
      assert content[offset..] == [] && handled + [] == handled;
    }
  }

  class LogCollector {
    var state: State

    constructor ()
      ensures state == State(None, [])
    {
      state := State(None, []);
    }

    method ReadLines(content: seq<Byte>, start: nat) returns (lines: seq<seq<Byte>>, end: nat)
      requires start <= |content|
      ensures lines == Lines(content[start..]) && end == start + Reach(content[start..])
    {
      var stop := false;
      lines, end := [], start;
      while !stop && end < |content|
        invariant start <= end <= |content|
        invariant !stop ==> Going(content, start, end, [], lines)
        invariant stop ==> lines == [] + Lines(content[start..]) && end == start + Reach(content[start..])
        decreases if stop then 0 else 1, |content| - end
      {
        var rest := content[end..];
        var n := LineEnd(rest);
        NextLine(content, start, end, [], lines);
        if !Complete(rest[..n]) {
          stop := true;
        } else {
          lines := lines + [rest[..n]];
          end := end + n;
        }
      }
      AtEnd(content, start, end, [], lines);
    }

    method CollectOnce(f: File) returns (processed: nat)
      modifies this
      ensures state == Collect(old(state), f)
      ensures |state.handled| == |old(state.handled)| + processed
    {
      var start := Begin(state, f);
      var lines, offset := ReadLines(f.content, start);
      processed := |lines|;
      state := State(Some((f.inode, offset)), state.handled + lines);
    }
  }
}
