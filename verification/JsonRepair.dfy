/** Closing truncated JSON (ai/json_repair.py). */
module JsonRepair {

  /** Scanner state: inside a string, after a backslash in it, net open braces and brackets,
      and the last position at which the text may be cut. */
  datatype Scan = Scan(inStr: bool, esc: bool, obj: int, arr: int, lastSafe: nat)

  const START := Scan(false, false, 0, 0, 0)

  function Step(st: Scan, ch: char, i: nat): Scan {
    if st.esc then st.(esc := false)
    else if ch == '\\' && st.inStr then st.(esc := true)
    else if ch == '"' then st.(inStr := !st.inStr)
    else if st.inStr then st
    else if ch == '{' then st.(obj := st.obj + 1, lastSafe := i)
    else if ch == '}' then st.(obj := st.obj - 1, lastSafe := i + 1)
    else if ch == '[' then st.(arr := st.arr + 1, lastSafe := i)
    else if ch == ']' then st.(arr := st.arr - 1, lastSafe := i + 1)
    else if ch == ',' then st.(lastSafe := i)
    else st
  }

  function ScanOf(s: string): Scan {
    if s == [] then START else Step(ScanOf(s[..|s| - 1]), s[|s| - 1], |s| - 1)
  }

  /** The characters `str.rstrip()` removes. */
  predicate IsSpace(c: char) {
    || '\t' <= c <= '\r' || '\U{1c}' <= c <= ' '
    || c == '\U{85}' || c == '\U{a0}' || c == '\U{1680}' || '\U{2000}' <= c <= '\U{200a}'
    || c == '\U{2028}' || c == '\U{2029}' || c == '\U{202f}' || c == '\U{205f}' || c == '\U{3000}'
  }

  function TrimSpace(s: string): string {
    if s != [] && IsSpace(s[|s| - 1]) then TrimSpace(s[..|s| - 1]) else s
  }

  function TrimCommas(s: string): string {
    if s != [] && s[|s| - 1] == ',' then TrimCommas(s[..|s| - 1]) else s
  }

  predicate EndsWith(s: string, c: char) { s != [] && s[|s| - 1] == c }

  function Rep(c: char, n: int): string
    decreases n
  {
    if n <= 0 then [] else Rep(c, n - 1) + [c]
  }

  predicate Truncates(s: string) { ScanOf(s).inStr || EndsWith(TrimSpace(s), ':') }

  lemma {:induction false} LastSafeOutside(s: string)
    ensures ScanOf(s).lastSafe <= |s|
    ensures Outside(s[..ScanOf(s).lastSafe])
    ensures ScanOf(s).esc ==> ScanOf(s).inStr
  {
    if s != [] {
      var front := s[..|s| - 1];
      LastSafeOutside(front);
      var k := ScanOf(s).lastSafe;
      if k <= |front| {
        assert s[..k] == front[..k];
        if k == |front| { assert front[..k] == front; }
      } else {
        assert s[..k] == s;
      }
    }
  }

  predicate Outside(s: string) { !ScanOf(s).inStr && !ScanOf(s).esc }

  /** The part of the input that survives. */
  function Kept(s: string): string {
    LastSafeOutside(s);
    TrimCommas(TrimSpace(if Truncates(s) then s[..ScanOf(s).lastSafe] else s))
  }

  function Closers(sc: Scan): string { Rep(']', sc.arr) + Rep('}', sc.obj) }

  function Repair(s: string): string {
    Kept(s) + Closers(ScanOf(if Truncates(s) then Kept(s) else s))
  }

  // ---------------------------------------------------------------- the program

  method Recalc(text: string) returns (obj: int, arr: int)
    ensures obj == ScanOf(text).obj && arr == ScanOf(text).arr
  {
    obj, arr := 0, 0;
    var inStr, esc := false, false;
    for i := 0 to |text|
      invariant var sc := ScanOf(text[..i]); inStr == sc.inStr && esc == sc.esc && obj == sc.obj && arr == sc.arr
    {
      assert text[..i + 1][..i] == text[..i];
      var ch := text[i];
      if esc { esc := false; continue; }
      if ch == '\\' && inStr { esc := true; continue; }
      if ch == '"' { inStr := !inStr; continue; }
      if inStr { continue; }
      if ch == '{' { obj := obj + 1; }
      else if ch == '}' { obj := obj - 1; }
      else if ch == '[' { arr := arr + 1; }
      else if ch == ']' { arr := arr - 1; }
    }
    assert text[..|text|] == text;
  }

  method RepairJson(input: string) returns (s: string)
    ensures s == Repair(input)
  {
    s := input;
    var obj, arr := 0, 0;
    var inStr, esc := false, false;
    var lastSafe: nat := 0;
    for i := 0 to |s|
      invariant s == input && Scan(inStr, esc, obj, arr, lastSafe) == ScanOf(s[..i])
    {
      assert s[..i + 1][..i] == s[..i];
      var ch := s[i];
      if esc { esc := false; continue; }
      if ch == '\\' && inStr { esc := true; continue; }
      if ch == '"' { inStr := !inStr; continue; }
      if inStr { continue; }
      if ch == '{' { obj := obj + 1; lastSafe := i; }
      else if ch == '}' { obj := obj - 1; lastSafe := i + 1; }
      else if ch == '[' { arr := arr + 1; lastSafe := i; }
      else if ch == ']' { arr := arr - 1; lastSafe := i + 1; }
      else if ch == ',' { lastSafe := i; }
    }
    assert s[..|s|] == s;
    LastSafeOutside(s);
    var truncate := inStr || EndsWith(TrimSpace(s), ':');
    if truncate {
      s := TrimCommas(TrimSpace(s[..lastSafe]));
      obj, arr := Recalc(s);
    } else {
      s := TrimCommas(TrimSpace(s));
    }
    s := s + (Rep(']', arr) + Rep('}', obj));
  }

  // ---------------------------------------------------------------- trimming and closing

  lemma {:induction false} TrimSpaceMeaning(s: string)
    ensures |TrimSpace(s)| <= |s| && TrimSpace(s) == s[..|TrimSpace(s)|]
    ensures TrimSpace(s) == s <==> s == [] || !IsSpace(s[|s| - 1])
    ensures Outside(s) ==> ScanOf(TrimSpace(s)) == ScanOf(s)
    ensures Outside(s) ==> NestOf(TrimSpace(s)) == NestOf(s)
  {
    if s != [] && IsSpace(s[|s| - 1]) {
      TrimSpaceMeaning(s[..|s| - 1]);
    }
  }

  lemma {:induction false} TrimCommasMeaning(s: string)
    ensures |TrimCommas(s)| <= |s| && TrimCommas(s) == s[..|TrimCommas(s)|]
    ensures TrimCommas(s) == s <==> !EndsWith(s, ',')
    ensures Outside(s) ==> Same(ScanOf(TrimCommas(s)), ScanOf(s))
    ensures Outside(s) ==> NestOf(TrimCommas(s)) == NestOf(s)
  {
    if s != [] && s[|s| - 1] == ',' {
      TrimCommasMeaning(s[..|s| - 1]);
    }
  }

  /** Equal up to the cut position. */
  predicate Same(a: Scan, b: Scan) {
    a.inStr == b.inStr && a.esc == b.esc && a.obj == b.obj && a.arr == b.arr
  }

  /** What is kept is a prefix of the input that scans to the outside of any string, and the
      closers are computed from its own counts. */
  lemma KeptMeaning(s: string)
    ensures |Kept(s)| <= |s| && Kept(s) == s[..|Kept(s)|]
    ensures Outside(Kept(s))
    ensures Repair(s) == Kept(s) + Closers(ScanOf(Kept(s)))
    ensures !EndsWith(Kept(s), ',')
  {
    LastSafeOutside(s);
    var cut := if Truncates(s) then s[..ScanOf(s).lastSafe] else s;
    assert Outside(cut);
    TrimSpaceMeaning(cut);
    TrimCommasMeaning(TrimSpace(cut));
    TrimCommasMeaning(TrimCommas(TrimSpace(cut)));
    NoTrailingComma(TrimSpace(cut));
  }

  lemma {:induction false} NoTrailingComma(s: string)
    ensures !EndsWith(TrimCommas(s), ',')
  {
    if EndsWith(s, ',') {
      NoTrailingComma(s[..|s| - 1]);
    }
  }

  lemma {:induction false} ScanCloser(t: string, c: char, n: int)
    requires Outside(t) && (c == ']' || c == '}')
    ensures Outside(t + Rep(c, n))
    ensures var sc := ScanOf(t + Rep(c, n));
            && sc.arr == ScanOf(t).arr - (if c == ']' && n > 0 then n else 0)
            && sc.obj == ScanOf(t).obj - (if c == '}' && n > 0 then n else 0)
    decreases n
  {
    if n <= 0 {
      assert t + Rep(c, n) == t;
    } else {
      ScanCloser(t, c, n - 1);
      var prev := t + Rep(c, n - 1);
      assert t + Rep(c, n) == prev + [c];
      hide Rep, ScanOf, Outside;
      OneCloser(prev, c);
    }
  }

  lemma OneCloser(t: string, c: char)
    requires Outside(t) && (c == ']' || c == '}')
    ensures Outside(t + [c])
    ensures ScanOf(t + [c]).arr == ScanOf(t).arr - (if c == ']' then 1 else 0)
    ensures ScanOf(t + [c]).obj == ScanOf(t).obj - (if c == '}' then 1 else 0)
  {
    ScanAppend(t, c);
    hide ScanOf;
  }

  /** The repaired text ends outside every string, and no bracket is left open: each net count is
      the smaller of zero and the count of the kept prefix. */
  lemma RepairCounts(s: string)
    ensures Outside(Repair(s))
    ensures ScanOf(Repair(s)).obj == (if ScanOf(Kept(s)).obj < 0 then ScanOf(Kept(s)).obj else 0)
    ensures ScanOf(Repair(s)).arr == (if ScanOf(Kept(s)).arr < 0 then ScanOf(Kept(s)).arr else 0)
  {
    KeptMeaning(s);
    var kept, sc := Kept(s), ScanOf(Kept(s));
    ScanCloser(kept, ']', sc.arr);
    ScanCloser(kept + Rep(']', sc.arr), '}', sc.obj);
    assert Repair(s) == kept + Rep(']', sc.arr) + Rep('}', sc.obj);
  }

  // ---------------------------------------------------------------- nesting

  /** The brackets still open, outermost first, or `Broken` after a closer that does not match. */
  datatype Nest = Broken | Open(stack: string)

  function NestStep(n: Nest, ch: char): Nest {
    if n.Broken? then n
    else if ch == '{' || ch == '[' then Open(n.stack + [ch])
    else if ch == '}' then (if EndsWith(n.stack, '{') then Open(n.stack[..|n.stack| - 1]) else Broken)
    else if ch == ']' then (if EndsWith(n.stack, '[') then Open(n.stack[..|n.stack| - 1]) else Broken)
    else n
  }

  function NestOf(s: string): Nest {
    if s == [] then Open([])
    else
      var front, ch := s[..|s| - 1], s[|s| - 1];
      var sc := ScanOf(front);
      if sc.esc || sc.inStr then NestOf(front) else NestStep(NestOf(front), ch)
  }

  predicate ProperlyNested(s: string) { Outside(s) && NestOf(s) == Open([]) }

  function CountOf(c: char, s: string): nat {
    if s == [] then 0 else CountOf(c, s[..|s| - 1]) + if s[|s| - 1] == c then 1 else 0
  }

  lemma CountPush(c: char, s: string, ch: char)
    ensures CountOf(c, s + [ch]) == CountOf(c, s) + if ch == c then 1 else 0
  {
    assert (s + [ch])[..|s|] == s;
  }

  predicate AllOpeners(s: string) { forall k :: 0 <= k < |s| ==> s[k] == '{' || s[k] == '[' }

  lemma NestStepCounts(n: Nest, ch: char)
    requires n.Open? && NestStep(n, ch).Open? && AllOpeners(n.stack)
    ensures var stack := NestStep(n, ch).stack;
            && AllOpeners(stack)
            && CountOf('{', stack) == CountOf('{', n.stack) + (if ch == '{' then 1 else if ch == '}' then -1 else 0)
            && CountOf('[', stack) == CountOf('[', n.stack) + (if ch == '[' then 1 else if ch == ']' then -1 else 0)
  {
    hide CountOf, AllOpeners;
    if ch == '{' || ch == '[' {
      PushCounts(n.stack, ch);
    } else if ch == '}' {
      PopCounts(n.stack, '{');
    } else if ch == ']' {
      PopCounts(n.stack, '[');
    }
  }

  lemma PushCounts(stack: string, o: char)
    requires AllOpeners(stack) && (o == '{' || o == '[')
    ensures AllOpeners(stack + [o])
    ensures CountOf('{', stack + [o]) == CountOf('{', stack) + if o == '{' then 1 else 0
    ensures CountOf('[', stack + [o]) == CountOf('[', stack) + if o == '[' then 1 else 0
  {
    CountPush('{', stack, o);
    CountPush('[', stack, o);
    hide CountOf;
  }

  lemma PopCounts(stack: string, o: char)
    requires AllOpeners(stack) && EndsWith(stack, o) && (o == '{' || o == '[')
    ensures var front := stack[..|stack| - 1];
            && AllOpeners(front)
            && CountOf('{', front) == CountOf('{', stack) - (if o == '{' then 1 else 0)
            && CountOf('[', front) == CountOf('[', stack) - (if o == '[' then 1 else 0)
  {
    var front := stack[..|stack| - 1];
    assert stack == front + [o];
    CountPush('{', front, o);
    CountPush('[', front, o);
    hide CountOf;
  }

  /** While the text nests, the scanner's counters are the numbers of open braces and brackets. */
  lemma {:induction false} CountersMatchStack(s: string)
    requires NestOf(s).Open?
    ensures AllOpeners(NestOf(s).stack)
    ensures ScanOf(s).obj == CountOf('{', NestOf(s).stack)
    ensures ScanOf(s).arr == CountOf('[', NestOf(s).stack)
  {
    if s != [] {
      var front, ch := s[..|s| - 1], s[|s| - 1];
      CountersMatchStack(front);
      if !ScanOf(front).esc && !ScanOf(front).inStr {
        NestStepCounts(NestOf(front), ch);
      }
    }
  }

  /** The last `n` elements of the stack are all `o`. */
  predicate EndsInRun(stack: string, o: char, n: nat) {
    n <= |stack| && forall k :: |stack| - n <= k < |stack| ==> stack[k] == o
  }

  function Opener(c: char): char { if c == ']' then '[' else '{' }

  function Pop(n: Nest, c: char, times: nat): Nest {
    if n.Open? && EndsInRun(n.stack, Opener(c), times) then Open(n.stack[..|n.stack| - times]) else Broken
  }

  lemma PopOnce(n: Nest, c: char, times: nat)
    requires times > 0 && (c == ']' || c == '}')
    ensures NestStep(Pop(n, c, times - 1), c) == Pop(n, c, times)
  {
    if n.Open? && times <= |n.stack| {
      assert EndsInRun(n.stack, Opener(c), times) <==>
             EndsInRun(n.stack, Opener(c), times - 1) && n.stack[|n.stack| - times] == Opener(c);
    }
  }

  /** Appending `n` copies of one closer pops `n` copies of its opener, or breaks the nesting. */
  lemma {:induction false} NestCloser(t: string, c: char, n: nat)
    requires Outside(t) && (c == ']' || c == '}')
    ensures NestOf(t + Rep(c, n)) == if NestOf(t).Broken? then Broken else Pop(NestOf(t), c, n)
    decreases n
  {
    if n == 0 {
      assert t + Rep(c, n) == t;
    } else {
      NestCloser(t, c, n - 1);
      ScanCloser(t, c, n - 1);
      PopOnce(NestOf(t), c, n);
      assert (t + Rep(c, n))[..|t + Rep(c, n)| - 1] == t + Rep(c, n - 1);
    }
  }

  /** All open braces lie outside all open brackets. */
  predicate BracesBelowBrackets(stack: string) {
    forall i, j :: 0 <= i < j < |stack| && stack[i] == '[' ==> stack[j] == '['
  }

  lemma {:induction false} OrderedStack(stack: string)
    requires AllOpeners(stack)
    ensures CountOf('{', stack) + CountOf('[', stack) == |stack|
    ensures CountOf('[', stack) == 0 <==> forall k :: 0 <= k < |stack| ==> stack[k] == '{'
    ensures BracesBelowBrackets(stack) <==> EndsInRun(stack, '[', CountOf('[', stack))
  {
    if stack != [] {
      var front, n := stack[..|stack| - 1], |stack| - 1;
      assert forall k :: 0 <= k < n ==> stack[k] == front[k];
      OrderedStack(front);
      if stack[n] == '[' {
        assert BracesBelowBrackets(stack) <==> BracesBelowBrackets(front);
      } else if CountOf('[', front) > 0 {
        var i :| 0 <= i < n && front[i] != '{';
        assert stack[i] == '[' && stack[n] == '{';
      }
    }
  }

  lemma {:induction false} BracesOnly(stack: string, m: nat)
    requires AllOpeners(stack) && EndsInRun(stack, '[', m) && CountOf('[', stack) == m
    ensures EndsInRun(stack[..|stack| - m], '{', |stack| - m)
  {
    if m == 0 {
      OrderedStack(stack);
    } else {
      var front := stack[..|stack| - 1];
      BracesOnly(front, m - 1);
      assert front[..|front| - (m - 1)] == stack[..|stack| - m];
    }
  }

  /** The repair yields properly nested text exactly when the kept prefix itself nests and every
      open brace encloses every open bracket: the closers come out in one fixed order. */
  lemma RepairNestsIff(s: string)
    ensures ProperlyNested(Repair(s)) <==> NestOf(Kept(s)).Open? && BracesBelowBrackets(NestOf(Kept(s)).stack)
  {
    RepairCounts(s);
    RepairNest(s);
    hide Repair, Kept;
    var nest, sc := NestOf(Kept(s)), ScanOf(Kept(s));
    if nest.Open? {
      CountersMatchStack(Kept(s));
      hide NestOf, ScanOf;
      PopsEmptyIff(nest.stack, sc.arr, sc.obj);
    }
    hide Pop;
  }

  /** The closers pop the open brackets, then the open braces. */
  lemma RepairNest(s: string)
    ensures var nest, sc := NestOf(Kept(s)), ScanOf(Kept(s));
            var arr, obj := if sc.arr < 0 then 0 else sc.arr, if sc.obj < 0 then 0 else sc.obj;
            NestOf(Repair(s)) == if nest.Broken? then Broken else Pop(Pop(nest, ']', arr), '}', obj)
  {
    KeptMeaning(s);
    var kept, sc := Kept(s), ScanOf(Kept(s));
    var arr, obj := if sc.arr < 0 then 0 else sc.arr, if sc.obj < 0 then 0 else sc.obj;
    var mid := kept + Rep(']', sc.arr);
    assert Repair(s) == mid + Rep('}', sc.obj);
    assert Rep(']', arr) == Rep(']', sc.arr) && Rep('}', obj) == Rep('}', sc.obj);
    hide Rep, Repair, Kept, ScanOf, NestOf;
    ScanCloser(kept, ']', sc.arr);
    NestCloser(kept, ']', arr);
    NestCloser(mid, '}', obj);
  }

  lemma PopsEmptyIff(stack: string, arr: nat, obj: nat)
    requires AllOpeners(stack) && arr == CountOf('[', stack) && obj == CountOf('{', stack)
    ensures Pop(Pop(Open(stack), ']', arr), '}', obj) == Open([]) <==> BracesBelowBrackets(stack)
  {
    OrderedStack(stack);
    if EndsInRun(stack, '[', arr) {
      BracesOnly(stack, arr);
    }
    hide CountOf, BracesBelowBrackets;
  }

  /** A brace opened inside a bracket is closed in the wrong order. */
  lemma CrossedClosers()
    ensures Kept("[{1") == "[{1" && NestOf("[{1") == Open("[{") && !ProperlyNested(Repair("[{1"))
  {
    var s := "[{1";
    assert s[..2] == "[{" && s[..2][..1] == "[" && s[..1][..0] == "";
    assert ScanOf("[") == Scan(false, false, 0, 1, 0);
    assert ScanOf("[{") == Scan(false, false, 1, 1, 1);
    assert ScanOf(s) == Scan(false, false, 1, 1, 1);
    assert Kept(s) == s;
    assert NestOf("[") == Open("[");
    assert NestOf("[{") == Open("[{");
    assert NestOf(s) == Open("[{");
    assert NestOf(s).stack[0] == '[' && NestOf(s).stack[1] == '{';
    RepairNestsIff(s);
  }

  // ---------------------------------------------------------------- when nothing changes

  /** Text that needs no repair: it ends outside a string, at something other than a space, comma
      or colon, with no brace or bracket left open. */
  predicate Complete(s: string) {
    && !ScanOf(s).inStr
    && (s == [] || !(IsSpace(s[|s| - 1]) || s[|s| - 1] == ',' || s[|s| - 1] == ':'))
    && ScanOf(s).obj <= 0 && ScanOf(s).arr <= 0
  }

  lemma TrimLength(s: string)
    ensures |TrimCommas(TrimSpace(s))| <= |s|
  {
    TrimSpaceMeaning(s);
    TrimCommasMeaning(TrimSpace(s));
  }

  lemma SafeBeforeColon(s: string)
    requires !ScanOf(s).inStr && EndsWith(TrimSpace(s), ':')
    ensures ScanOf(s).lastSafe < |s|
  {
    hide TrimSpace, NestOf, ScanOf;
    LastSafeOutside(s);
    TrimSpaceMeaning(s);
    ColonMovesNothing(TrimSpace(s));
  }

  lemma ColonMovesNothing(t: string)
    requires EndsWith(t, ':')
    ensures ScanOf(t).lastSafe < |t|
  {
    LastSafeOutside(t[..|t| - 1]);
  }

  lemma CutBeforeColon(s: string)
    requires !ScanOf(s).inStr && EndsWith(TrimSpace(s), ':')
    ensures |Kept(s)| < |s|
  {
    SafeBeforeColon(s);
    TrimLength(s[..ScanOf(s).lastSafe]);
  }

  lemma {:induction false} RepLast(c: char, n: int)
    ensures |Rep(c, n)| == if n > 0 then n else 0
    ensures n > 0 ==> EndsWith(Rep(c, n), c)
    decreases n
  {
    if n > 0 {
      RepLast(c, n - 1);
    }
  }

  lemma RepairLast(s: string)
    ensures |Kept(s)| < |Repair(s)| <==> ScanOf(Kept(s)).obj > 0 || ScanOf(Kept(s)).arr > 0
    ensures |Kept(s)| < |Repair(s)| ==> EndsWith(Repair(s), ']') || EndsWith(Repair(s), '}')
    ensures |Kept(s)| == |Repair(s)| ==> Repair(s) == Kept(s)
  {
    KeptMeaning(s);
    var sc := ScanOf(Kept(s));
    RepLast(']', sc.arr);
    RepLast('}', sc.obj);
  }

  /** The repair leaves a text alone exactly when it is complete. */
  lemma UnchangedIffComplete(s: string)
    ensures Repair(s) == s <==> Complete(s)
  {
    LastSafeOutside(s);
    KeptMeaning(s);
    RepairCounts(s);
    RepairLast(s);
    TrimSpaceMeaning(s);
    TrimCommasMeaning(s);
    if Complete(s) {
      assert Kept(s) == s;
    } else if Repair(s) == s && !ScanOf(s).inStr {
      if EndsWith(TrimSpace(s), ':') {
        CutBeforeColon(s);
      } else {
        TrimCommasMeaning(TrimSpace(s));
      }
    }
  }

  /** The text before anything is stripped: cut at the last safe position, or whole. */
  function Cut(s: string): string {
    LastSafeOutside(s);
    if Truncates(s) then s[..ScanOf(s).lastSafe] else s
  }

  predicate Separator(c: char) { c == ',' || c == '{' || c == '[' }

  predicate Closer(c: char) { c == '}' || c == ']' }

  /** A comma or an opener at `n`, or a closer just before it, outside the strings. */
  predicate Marks(s: string, n: nat)
    requires n <= |s|
  {
    || (n < |s| && Separator(s[n]) && Outside(s[..n]))
    || (n > 0 && Closer(s[n - 1]) && Outside(s[..n - 1]))
  }

  /** The cut of a truncated text is at the last mark, and at the start only if there is none. */
  lemma CutMeaning(s: string)
    requires Truncates(s)
    ensures |Cut(s)| <= |s| && Cut(s) == s[..|Cut(s)|]
    ensures |Cut(s)| == 0 || Marks(s, |Cut(s)|)
    ensures forall n :: |Cut(s)| < n <= |s| ==> !Marks(s, n)
  {
    LastSafeMeaning(s);
  }

  lemma {:induction false} LastSafeMeaning(s: string)
    ensures ScanOf(s).lastSafe <= |s|
    ensures ScanOf(s).lastSafe == 0 || Marks(s, ScanOf(s).lastSafe)
    ensures forall n :: ScanOf(s).lastSafe < n <= |s| ==> !Marks(s, n)
  {
    if s != [] {
      var front, last := s[..|s| - 1], |s| - 1;
      LastSafeMeaning(front);
      LastSafeOutside(front);
      hide ScanOf;
      assert s[..last] == front && s == front + [s[last]];
      forall n | 0 <= n < last ensures Marks(s, n) == Marks(front, n) {
        assert s[..n] == front[..n] && (n > 0 ==> s[..n - 1] == front[..n - 1]);
      }
      assert last > 0 ==> s[..last - 1] == front[..last - 1];
      LastMark(front, s[last]);
    }
  }

  /** What one more character does to the last safe position. */
  lemma LastMark(front: string, ch: char)
    requires !(ScanOf(front).esc && !ScanOf(front).inStr)
    ensures var sc, s := ScanOf(front), front + [ch];
            ScanOf(s).lastSafe == if sc.inStr then sc.lastSafe
                                  else if Separator(ch) then |front|
                                  else if Closer(ch) then |front| + 1
                                  else sc.lastSafe
  {
    ScanAppend(front, ch);
    hide ScanOf;
  }

  lemma ScanAppend(front: string, ch: char)
    ensures ScanOf(front + [ch]) == Step(ScanOf(front), ch, |front|)
  {
    assert (front + [ch])[..|front|] == front;
    hide Step;
  }

  lemma {:induction false} SpacesGo(s: string)
    ensures |TrimSpace(s)| <= |s| && forall k :: |TrimSpace(s)| <= k < |s| ==> IsSpace(s[k])
    ensures TrimSpace(s) == [] || !IsSpace(TrimSpace(s)[|TrimSpace(s)| - 1])
  {
    hide IsSpace;
    if s != [] && IsSpace(s[|s| - 1]) {
      SpacesGo(s[..|s| - 1]);
    }
  }

  lemma {:induction false} CommasGo(s: string)
    ensures |TrimCommas(s)| <= |s| && forall k :: |TrimCommas(s)| <= k < |s| ==> s[k] == ','
  {
    if s != [] && s[|s| - 1] == ',' {
      CommasGo(s[..|s| - 1]);
    }
  }

  /** `t` without the white space at its end has length `m`, and without the commas at the end of
      that length `n`. */
  predicate Strips(t: string, m: nat, n: nat)
    requires n <= m <= |t|
  {
    && (forall k :: n <= k < m ==> t[k] == ',') && (forall k :: m <= k < |t| ==> IsSpace(t[k]))
    && (m == 0 || !IsSpace(t[m - 1])) && (n == 0 || t[n - 1] != ',')
  }

  /** What survives is the text, cut if it must be, stripped of white space and then of commas. */
  lemma KeptExtent(s: string)
    ensures !Truncates(s) ==> Cut(s) == s
    ensures |Kept(s)| <= |Cut(s)| && Kept(s) == Cut(s)[..|Kept(s)|]
    ensures exists m :: |Kept(s)| <= m <= |Cut(s)| && Strips(Cut(s), m, |Kept(s)|)
  {
    CutCounts(s);
    KeptMeaning(s);
    hide ScanOf, TrimSpace, TrimCommas, Kept, Truncates, IsSpace;
    var t := TrimSpace(Cut(s));
    SpacesGo(Cut(s));
    CommasGo(t);
    TrimSpaceMeaning(Cut(s));
    TrimCommasMeaning(t);
    assert Strips(Cut(s), |t|, |Kept(s)|);
  }

  /** The characters that do not lie inside a string. */
  function Structural(s: string): string {
    if s == [] then [] else if Outside(s[..|s| - 1]) then Structural(s[..|s| - 1]) + [s[|s| - 1]] else Structural(s[..|s| - 1])
  }

  /** The counters are openers minus closers outside the strings. */
  lemma {:induction false} CountersMeaning(s: string)
    ensures ScanOf(s).obj == CountOf('{', Structural(s)) - CountOf('}', Structural(s))
    ensures ScanOf(s).arr == CountOf('[', Structural(s)) - CountOf(']', Structural(s))
  {
    if s != [] {
      var front, ch := s[..|s| - 1], s[|s| - 1];
      CountersMeaning(front);
      LastSafeOutside(front);
      assert s == front + [ch];
      CountersStep(front, ch);
    }
  }

  lemma CountersStep(front: string, ch: char)
    requires ScanOf(front).obj == CountOf('{', Structural(front)) - CountOf('}', Structural(front))
    requires ScanOf(front).arr == CountOf('[', Structural(front)) - CountOf(']', Structural(front))
    requires ScanOf(front).esc ==> ScanOf(front).inStr
    ensures ScanOf(front + [ch]).obj == CountOf('{', Structural(front + [ch])) - CountOf('}', Structural(front + [ch]))
    ensures ScanOf(front + [ch]).arr == CountOf('[', Structural(front + [ch])) - CountOf(']', Structural(front + [ch]))
  {
    ScanAppend(front, ch);
    assert (front + [ch])[..|front|] == front;
    var was := Structural(front);
    assert Structural(front + [ch]) == if Outside(front) then was + [ch] else was;
    hide ScanOf, Structural, CountOf;
    if Outside(front) {
      CountPush('{', was, ch);
      CountPush('}', was, ch);
      CountPush('[', was, ch);
      CountPush(']', was, ch);
    }
  }

  /** Without backslashes a text ends inside a string exactly if its quotes are odd in number. */
  lemma {:induction false} QuotesMeaning(s: string)
    requires '\\' !in s
    ensures ScanOf(s).inStr <==> CountOf('"', s) % 2 == 1
    ensures !ScanOf(s).esc
  {
    if s != [] {
      assert s[|s| - 1] in s && forall c :: c in s[..|s| - 1] ==> c in s;
      QuotesMeaning(s[..|s| - 1]);
    }
  }

  /** A backslash outside a string means nothing; inside, it takes the next character with it. */
  lemma BackslashMeaning(s: string, c: char)
    requires !ScanOf(s).esc
    ensures !ScanOf(s).inStr ==> ScanOf(s + ['\\']) == ScanOf(s)
    ensures ScanOf(s).inStr ==> ScanOf(s + ['\\', c]) == ScanOf(s)
  {
    assert (s + ['\\'])[..|s|] == s && (s + ['\\', c])[..|s| + 1] == s + ['\\'];
  }

  /** The ordinary cut inside a string: `[1,"a` keeps its first element. */
  lemma CutInsideString()
    ensures Repair("[1,\"a") == "[1]"
  {
    var s := "[1,\"a";
    ScanSteps();
    assert s[..2] == "[1";
    hide ScanOf;
    assert Kept(s) == "[1";
    assert Rep(']', 1) == "]" by { assert Rep(']', 0) == ""; }
  }

  lemma ScanSteps()
    ensures ScanOf("[1") == Scan(false, false, 0, 1, 0) && ScanOf("[1,\"a") == Scan(true, false, 0, 1, 2)
  {
    assert ScanOf("") == START && "" + ['['] == "[" && "[" + ['1'] == "[1";
    assert "[1" + [','] == "[1," && "[1," + ['"'] == "[1,\"" && "[1,\"" + ['a'] == "[1,\"a";
    hide ScanOf;
    ScanAppend("", '[');
    ScanAppend("[", '1');
    ScanAppend("[1", ',');
    ScanAppend("[1,", '"');
    ScanAppend("[1,\"", 'a');
  }

  /** A colon or a space that only a run of commas separates from the end. */
  predicate Dangling(t: string) { exists n :: 0 <= n < |t| && DanglingAt(t, n) }

  predicate DanglingAt(t: string, n: nat)
    requires n < |t|
  {
    LooseEnd(t[n]) && forall k :: n < k < |t| ==> t[k] == ','
  }

  predicate LooseEnd(c: char) { c == ':' || IsSpace(c) }

  predicate NothingOpen(t: string) { ScanOf(t).obj <= 0 && ScanOf(t).arr <= 0 }

  lemma {:induction false} DanglingMeaning(t: string)
    ensures Dangling(t) <==> TrimCommas(t) != [] && LooseEnd(TrimCommas(t)[|TrimCommas(t)| - 1])
  {
    hide LooseEnd;
    if EndsWith(t, ',') {
      var front := t[..|t| - 1];
      DanglingMeaning(front);
      CommaIsNoLooseEnd();
      if Dangling(front) {
        var n :| 0 <= n < |front| && DanglingAt(front, n);
        assert DanglingAt(t, n);
      }
      if Dangling(t) {
        var n :| 0 <= n < |t| && DanglingAt(t, n);
        assert DanglingAt(front, n);
      }
    } else if t != [] && LooseEnd(t[|t| - 1]) {
      assert DanglingAt(t, |t| - 1);
    }
  }

  lemma CommaIsNoLooseEnd()
    ensures !LooseEnd(',')
  {
  }

  lemma CutCounts(s: string)
    ensures Kept(s) == TrimCommas(TrimSpace(Cut(s))) && NothingOpen(Cut(s)) == NothingOpen(Kept(s))
  {
    LastSafeOutside(s);
    TrimSpaceMeaning(Cut(s));
    TrimCommasMeaning(TrimSpace(Cut(s)));
    hide ScanOf, TrimSpace, TrimCommas;
  }

  lemma RepairCompleteIff(s: string)
    ensures Complete(Repair(s)) <==> !(NothingOpen(Kept(s)) && Kept(s) != [] && LooseEnd(Kept(s)[|Kept(s)| - 1]))
  {
    hide ScanOf, Repair, Kept;
    RepairCounts(s);
    RepairLast(s);
    KeptMeaning(s);
  }

  /** Repairing twice changes nothing more, unless the text (cut if it must be, then stripped) ends
      in a colon or a space with only commas behind it and leaves nothing open that a closer would
      cover. */
  lemma IdempotentIff(s: string)
    ensures Repair(Repair(s)) == Repair(s) <==> !(NothingOpen(Cut(s)) && Dangling(TrimSpace(Cut(s))))
  {
    hide Repair, Kept, Complete, Dangling, NothingOpen, LooseEnd, TrimSpace, TrimCommas;
    UnchangedIffComplete(Repair(s));
    RepairCompleteIff(s);
    CutCounts(s);
    DanglingMeaning(TrimSpace(Cut(s)));
  }

  /** A text whose repair is repaired again: `1 ,` becomes `1 ` and then `1`. */
  lemma RepairedTwice()
    ensures Repair("1 ,") == "1 " && Repair("1 ") == "1"
  {
    assert ScanOf("1") == START by { assert "1"[..0] == ""; }
    assert ScanOf("1 ") == START by { assert "1 "[..1] == "1"; }
    assert ScanOf("1 ,") == START.(lastSafe := 2) by { assert "1 ,"[..2] == "1 "; }
    assert TrimSpace("1") == "1";
    assert TrimSpace("1 ") == "1" by { assert "1 "[..1] == "1"; }
    assert TrimSpace("1 ,") == "1 ,";
    assert TrimCommas("1 ,") == "1 " by { assert "1 ,"[..2] == "1 "; }
  }
}
