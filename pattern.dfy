/** The one regular expression the extractor builds,

      <kind>\s+(?:with|having)?\s+<prop>[:\s]+["']?([^"']+)["']?     (flag i)

    with ECMAScript semantics (section 22.2 of ECMA-262): unanchored, the
    leftmost start position wins, and at each start the quantifiers backtrack
    greediest first. `kind` and `prop` are lower-case ASCII words, so a
    case-insensitive literal match is an ASCII-lower-case comparison.

    `MatchAt` is the hand-written matcher for one start position; `RefAt`
    tries every length of every quantifier the way the regex engine does, and
    `MatchAtIsBacktracking` proves the two equal. */
module Pattern {
  import opened Js

  predicate IsSep(c: char) { c == ':' || IsSpace(c) }

  predicate IsQuote(c: char) { c == '"' || c == '\'' }

  predicate NotQuote(c: char) { !IsQuote(c) }

  /** Every character of s[i..j] satisfies p. */
  predicate AllIn(s: string, i: nat, j: nat, p: char -> bool)
  {
    i <= j <= |s| && forall k :: i <= k < j ==> p(s[k])
  }

  /** End of the maximal run of characters satisfying p that starts at i. */
  function RunEnd(s: string, i: nat, p: char -> bool): (e: nat)
    requires i <= |s|
    ensures i <= e <= |s|
    ensures e == |s| || !p(s[e])
    decreases |s| - i
  {
    if i < |s| && p(s[i]) then RunEnd(s, i + 1, p) else i
  }

  /** The lower-case literal w matches case-insensitively at index i. */
  predicate WordAt(s: string, i: nat, w: string)
  {
    i + |w| <= |s| && forall k :: 0 <= k < |w| ==> Lower(s[i + k]) == w[k]
  }

  /** Bounds of the capture group in the text. */
  datatype Span = Span(start: nat, end: nat)

  /** A capture of `([^"']+)`: non-empty, quote-free, ended by a quote or the end. */
  predicate IsCapture(s: string, sp: Span)
  {
    sp.start < sp.end <= |s| && sp.end == RunEnd(s, sp.start, NotQuote)
  }

  /** Ordered choice: the first alternative that succeeds. */
  function Alt(a: Option<Span>, b: Option<Span>): Option<Span>
  {
    if a.Some? then a else b
  }

  /** `([^"']+)["']?` at r. The greedy + takes the whole non-quote run, and the
      optional quote after it always succeeds, so no shorter length is tried. */
  function Capture(s: string, r: nat): (v: Option<Span>)
    requires r <= |s|
    ensures v.Some? <==> r < |s| && NotQuote(s[r])
    ensures v.Some? ==> v.value.start == r && IsCapture(s, v.value)
  {
    var e := RunEnd(s, r, NotQuote);
    if e > r then Some(Span(r, e)) else None
  }

  /** `["']?([^"']+)["']?` at r: first with the quote consumed, then without. */
  function ValueAt(s: string, r: nat): (v: Option<Span>)
    requires r <= |s|
    ensures v.None? <==> r == |s| || (IsQuote(s[r]) && (r + 1 == |s| || IsQuote(s[r + 1])))
    ensures v.Some? ==> IsCapture(s, v.value)
    ensures v.Some? ==> v.value.start == r || (v.value.start == r + 1 && IsQuote(s[r]))
  {
    Alt(if r < |s| && IsQuote(s[r]) then Capture(s, r + 1) else None, Capture(s, r))
  }

  /** `[:\s]+` has consumed s[q..k]; backtracking gives it k, k-1, ..., q+1. */
  function Backtrack(s: string, q: nat, k: nat): (v: Option<Span>)
    requires q < k <= |s|
    ensures v.Some? ==> IsCapture(s, v.value) && q < v.value.start
    decreases k
  {
    Alt(ValueAt(s, k), if k - 1 > q then Backtrack(s, q, k - 1) else None)
  }

  /** `[:\s]+["']?([^"']+)["']?` at q, just after the property name. */
  function AfterProp(s: string, q: nat): (v: Option<Span>)
    requires q <= |s|
    ensures v.Some? ==> IsCapture(s, v.value) && q < v.value.start
  {
    var m := RunEnd(s, q, IsSep);
    if m == q then None else Backtrack(s, q, m)
  }

  /** The property name at e, then the rest of the pattern. */
  function PropAt(s: string, e: nat, prop: string): (v: Option<Span>)
    requires e <= |s|
    ensures v.Some? ==> IsCapture(s, v.value) && e + |prop| < v.value.start
  {
    if WordAt(s, e, prop) then AfterProp(s, e + |prop|) else None
  }

  /** The connective w at e, a whitespace run, then the property name. */
  function ViaConnective(s: string, e: nat, w: string, prop: string): (v: Option<Span>)
    requires e <= |s|
    ensures v.Some? ==> IsCapture(s, v.value) && e < v.value.start
  {
    if WordAt(s, e, w) then
      var c := e + |w|;
      var e2 := RunEnd(s, c, IsSpace);
      if e2 > c then PropAt(s, e2, prop) else None
    else None
  }

  /** The pattern at start st, in the two shapes backtracking leaves: the kind,
      its maximal whitespace run, `with` or `having`, whitespace and the
      property; or the kind, a whitespace run of two or more, and the property. */
  function MatchAt(s: string, st: nat, kind: string, prop: string): (v: Option<Span>)
    requires st <= |s|
    ensures v.Some? ==> IsCapture(s, v.value) && st + |kind| < v.value.start
  {
    if !WordAt(s, st, kind) then None
    else
      var p0 := st + |kind|;
      var e := RunEnd(s, p0, IsSpace);
      if e == p0 then None
      else
        Alt(Alt(ViaConnective(s, e, "with", prop), ViaConnective(s, e, "having", prop)),
            if e - p0 >= 2 then PropAt(s, e, prop) else None)
  }

  /** Index of the first success in xs at or after i. */
  function FirstSome(xs: seq<Option<Span>>, i: nat): (r: Option<nat>)
    requires i <= |xs|
    ensures r.Some? ==> i <= r.value < |xs| && xs[r.value].Some?
    ensures r.Some? ==> forall st :: i <= st < r.value ==> xs[st].None?
    ensures r.None? ==> forall st :: i <= st < |xs| ==> xs[st].None?
    decreases |xs| - i
  {
    if i == |xs| then None
    else if xs[i].Some? then Some(i)
    else FirstSome(xs, i + 1)
  }

  /** The outcome of the pattern at every start position 0, 1, ..., |s|. */
  function Attempts(s: string, kind: string, prop: string): (xs: seq<Option<Span>>)
    ensures |xs| == |s| + 1
    ensures forall st :: 0 <= st <= |s| ==> xs[st] == MatchAt(s, st, kind, prop)
  {
    seq(|s| + 1, st requires 0 <= st <= |s| => MatchAt(s, st, kind, prop))
  }

  /** `s.match(regex)` reduced to its group 1, or None when nothing matches:
      the capture of the leftmost start position at which the pattern matches.
      A capture is never empty and never holds a quote. */
  function Match(s: string, kind: string, prop: string): (r: Option<string>)
    ensures r.Some? ==> r.value != [] && forall k :: 0 <= k < |r.value| ==> !IsQuote(r.value[k])
  {
    var xs := Attempts(s, kind, prop);
    var f := FirstSome(xs, 0);
    if f.Some? then
      var sp := xs[f.value].value;
      RunEndAll(s, sp.start, NotQuote);
      Some(s[sp.start..sp.end])
    else None
  }

  // ---------------------------------------------------------------------
  // Reference: the regex engine's backtracking, every quantifier trying each
  // of its lengths greediest first.

  function RefAt(s: string, st: nat, kind: string, prop: string): Option<Span>
    requires st <= |s|
  {
    if !WordAt(s, st, kind) then None
    else
      var p0 := st + |kind|;
      RefSpaces1(s, p0, RunEnd(s, p0, IsSpace), prop)
  }

  /** The first `\s+` has consumed s[p0..e]. */
  function RefSpaces1(s: string, p0: nat, e: nat, prop: string): Option<Span>
    requires p0 <= e <= |s|
    decreases e
  {
    if e == p0 then None
    else Alt(RefGroup(s, e, prop), RefSpaces1(s, p0, e - 1, prop))
  }

  /** `(?:with|having)?\s+<prop>...` at e: the group first, then without it. */
  function RefGroup(s: string, e: nat, prop: string): Option<Span>
    requires e <= |s|
  {
    Alt(Alt(RefConnective(s, e, "with", prop), RefConnective(s, e, "having", prop)),
        RefSpaces2Start(s, e, prop))
  }

  function RefConnective(s: string, e: nat, w: string, prop: string): Option<Span>
    requires e <= |s|
  {
    if WordAt(s, e, w) then RefSpaces2Start(s, e + |w|, prop) else None
  }

  function RefSpaces2Start(s: string, c: nat, prop: string): Option<Span>
    requires c <= |s|
  {
    RefSpaces2(s, c, RunEnd(s, c, IsSpace), prop)
  }

  /** The second `\s+` has consumed s[c..e]. */
  function RefSpaces2(s: string, c: nat, e: nat, prop: string): Option<Span>
    requires c <= e <= |s|
    decreases e
  {
    if e == c then None
    else Alt(PropAt(s, e, prop), RefSpaces2(s, c, e - 1, prop))
  }

  /** The capture of the first start position at or after st at which the
      backtracking reference matches. */
  function RefSearch(s: string, st: nat, kind: string, prop: string): (v: Option<Span>)
    requires st <= |s| + 1
    ensures v.Some? ==> IsCapture(s, v.value)
    decreases |s| + 1 - st
  {
    if st > |s| then None
    else
      RefAtCapture(s, st, kind, prop);
      var v := RefAt(s, st, kind, prop);
      if v.Some? then v else RefSearch(s, st + 1, kind, prop)
  }

  /** `s.match(regex)` group 1 by the reference semantics. */
  function RefMatch(s: string, kind: string, prop: string): Option<string>
  {
    var v := RefSearch(s, 0, kind, prop);
    if v.Some? then Some(s[v.value.start..v.value.end]) else None
  }

  // ---------------------------------------------------------------------
  // Lemmas

  /** Every character of the run satisfies p. */
  lemma {:induction false} RunEndAll(s: string, i: nat, p: char -> bool)
    requires i <= |s|
    ensures AllIn(s, i, RunEnd(s, i, p), p)
    decreases |s| - i
  {
    if i < |s| && p(s[i]) {
      RunEndAll(s, i + 1, p);
    }
  }

  lemma {:induction false} RunEndFrom(s: string, i: nat, j: nat, p: char -> bool)
    requires i <= |s| && i <= j <= RunEnd(s, i, p)
    ensures RunEnd(s, j, p) == RunEnd(s, i, p)
    decreases j - i
  {
    if i < j {
      RunEndFrom(s, i + 1, j, p);
    }
  }

  lemma {:induction false} RunEndPast(s: string, i: nat, j: nat, p: char -> bool)
    requires AllIn(s, i, j, p)
    ensures RunEnd(s, i, p) >= j
    decreases j - i
  {
    if i < j {
      RunEndPast(s, i + 1, j, p);
    }
  }

  /** A property name never starts on whitespace, so it cannot match there. */
  lemma NoPropOnSpace(s: string, f: nat, prop: string)
    requires f < |s| && IsSpace(s[f])
    requires prop != [] && !IsSpace(prop[0])
    ensures PropAt(s, f, prop) == None
  {
    assert Lower(s[f]) == s[f];
  }

  lemma {:induction false} Spaces2Below(s: string, c: nat, f: nat, prop: string)
    requires c <= f < |s|
    requires forall k :: c < k <= f ==> IsSpace(s[k])
    requires prop != [] && !IsSpace(prop[0])
    ensures RefSpaces2(s, c, f, prop) == None
    decreases f
  {
    if f > c {
      NoPropOnSpace(s, f, prop);
      Spaces2Below(s, c, f - 1, prop);
    }
  }

  /** Backtracking the second `\s+` never helps: only its full run can be
      followed by the property name. */
  lemma Spaces2Collapse(s: string, c: nat, prop: string)
    requires c <= |s|
    requires prop != [] && !IsSpace(prop[0])
    ensures var e := RunEnd(s, c, IsSpace);
      RefSpaces2Start(s, c, prop) == if e > c then PropAt(s, e, prop) else None
  {
    var e := RunEnd(s, c, IsSpace);
    if e > c {
      RunEndAll(s, c, IsSpace);
      Spaces2Below(s, c, e - 1, prop);
    }
  }

  /** Below the full whitespace run after the kind, every shorter length of the
      first `\s+` gives the same outcome: the property at the end of the run. */
  lemma {:induction false} Spaces1Below(s: string, p0: nat, f: nat, prop: string)
    requires p0 <= |s| && p0 <= f < RunEnd(s, p0, IsSpace)
    requires prop != [] && !IsSpace(prop[0])
    ensures RefSpaces1(s, p0, f, prop) == if f == p0 then None else PropAt(s, RunEnd(s, p0, IsSpace), prop)
    decreases f
  {
    if f > p0 {
      RunEndAll(s, p0, IsSpace);
      assert IsSpace(s[f]);
      assert Lower(s[f]) == s[f];
      assert "with"[0] == 'w' && "having"[0] == 'h';
      assert !WordAt(s, f, "with") && !WordAt(s, f, "having");
      RunEndFrom(s, p0, f, IsSpace);
      Spaces2Collapse(s, f, prop);
      Spaces1Below(s, p0, f - 1, prop);
    }
  }

  lemma ConnectiveIsBacktracking(s: string, e: nat, w: string, prop: string)
    requires e <= |s|
    requires prop != [] && !IsSpace(prop[0])
    ensures RefConnective(s, e, w, prop) == ViaConnective(s, e, w, prop)
  {
    if WordAt(s, e, w) {
      Spaces2Collapse(s, e + |w|, prop);
    }
  }

  /** At the end of the first whitespace run only the connectives can follow. */
  lemma GroupAtRunEnd(s: string, e: nat, prop: string)
    requires e <= |s| && (e == |s| || !IsSpace(s[e]))
    requires prop != [] && !IsSpace(prop[0])
    ensures RefGroup(s, e, prop) == Alt(ViaConnective(s, e, "with", prop), ViaConnective(s, e, "having", prop))
  {
    ConnectiveIsBacktracking(s, e, "with", prop);
    ConnectiveIsBacktracking(s, e, "having", prop);
    assert RunEnd(s, e, IsSpace) == e;
    assert RefSpaces2Start(s, e, prop) == None;
  }

  /** The first `\s+` at its full run: the connectives, else (for a run of two
      or more) the property straight after the run. */
  lemma Spaces1AtRunEnd(s: string, p0: nat, e: nat, prop: string)
    requires p0 <= |s| && p0 < e == RunEnd(s, p0, IsSpace)
    requires prop != [] && !IsSpace(prop[0])
    ensures RefSpaces1(s, p0, e, prop) ==
      Alt(Alt(ViaConnective(s, e, "with", prop), ViaConnective(s, e, "having", prop)),
          if e - p0 >= 2 then PropAt(s, e, prop) else None)
  {
    GroupAtRunEnd(s, e, prop);
    Spaces1Below(s, p0, e - 1, prop);
  }

  /** The hand-written matcher is the regex engine's backtracking search. */
  lemma MatchAtIsBacktracking(s: string, st: nat, kind: string, prop: string)
    requires st <= |s|
    requires prop != [] && !IsSpace(prop[0])
    ensures MatchAt(s, st, kind, prop) == RefAt(s, st, kind, prop)
  {
    if WordAt(s, st, kind) {
      var p0 := st + |kind|;
      var e := RunEnd(s, p0, IsSpace);
      assert RefAt(s, st, kind, prop) == RefSpaces1(s, p0, e, prop);
      if e > p0 {
        Spaces1AtRunEnd(s, p0, e, prop);
      }
    }
  }

  /** The separator run and what follows it. Normally the capture starts right
      after the run (past one quote if there is one). When the run is followed
      by the end of the text, or by a quote and then another quote or the end,
      backtracking hands the last separator character to the capture group. */
  lemma AfterPropShape(s: string, q: nat)
    requires q <= |s|
    ensures var m := RunEnd(s, q, IsSep);
      AfterProp(s, q) ==
        if m == q then None
        else if ValueAt(s, m).Some? then ValueAt(s, m)
        else if m - q >= 2 then Some(Span(m - 1, m))
        else None
  {
    var m := RunEnd(s, q, IsSep);
    if m > q && ValueAt(s, m).None? && m - q >= 2 {
      RunEndAll(s, q, IsSep);
      assert IsSep(s[m - 1]);
      assert RunEnd(s, m, NotQuote) == m;
      assert RunEnd(s, m - 1, NotQuote) == m;
      assert ValueAt(s, m - 1) == Some(Span(m - 1, m));
      assert Backtrack(s, q, m - 1) == Some(Span(m - 1, m));
    }
  }

  /** Two quotes right after a separator run of two or more characters (as in
      `label: ''`): the value cannot start at the quotes, so the capture is the
      run's last character alone, and when that is whitespace it trims to "". */
  lemma EmptyQuotesCapture(s: string, q: nat, m: nat)
    requires q + 2 <= m && m + 1 < |s| && AllIn(s, q, m, IsSep)
    requires IsQuote(s[m]) && IsQuote(s[m + 1])
    ensures AfterProp(s, q) == Some(Span(m - 1, m))
    ensures IsSpace(s[m - 1]) ==> Trim(s[m - 1..m]) == ""
  {
    RunEndAt(s, q, m, IsSep);
    AfterPropShape(s, q);
    if IsSpace(s[m - 1]) {
      assert AllSpace(s[m - 1..m]);
    }
  }

  /** What may stand between the kind word at i and the property name at e. */
  ghost predicate Joined(s: string, i: nat, e: nat)
  {
    || (e >= i + 2 && AllIn(s, i, e, IsSpace))
    || JoinedBy(s, i, e, "with")
    || JoinedBy(s, i, e, "having")
  }

  ghost predicate JoinedBy(s: string, i: nat, e: nat, w: string)
  {
    exists c: nat :: JoinedVia(s, i, c, e, w)
  }

  /** Whitespace from i, the connective w at c, whitespace up to e. */
  ghost predicate JoinedVia(s: string, i: nat, c: nat, e: nat, w: string)
  {
    i < c && c + |w| < e && AllIn(s, i, c, IsSpace) && WordAt(s, c, w) && AllIn(s, c + |w|, e, IsSpace)
  }

  /** Separators from q, then optionally one quote, then the capture. */
  ghost predicate ValueAfter(s: string, q: nat, sp: Span)
  {
    exists r: nat :: ValueFrom(s, q, r, sp)
  }

  /** The separators run from q to r; the capture starts at r or past a quote at r. */
  ghost predicate ValueFrom(s: string, q: nat, r: nat, sp: Span)
  {
    q < r <= sp.start && AllIn(s, q, r, IsSep) && (sp.start == r || (sp.start == r + 1 && r < |s| && IsQuote(s[r])))
  }

  lemma {:induction false} BacktrackSound(s: string, q: nat, k: nat)
    requires q < k <= |s| && AllIn(s, q, k, IsSep)
    ensures Backtrack(s, q, k).Some? ==> ValueAfter(s, q, Backtrack(s, q, k).value)
    decreases k
  {
    if ValueAt(s, k).Some? {
      assert ValueFrom(s, q, k, ValueAt(s, k).value);
    } else if k - 1 > q {
      assert AllIn(s, q, k - 1, IsSep);
      BacktrackSound(s, q, k - 1);
    }
  }

  lemma AfterPropSound(s: string, q: nat)
    requires q <= |s|
    ensures AfterProp(s, q).Some? ==> ValueAfter(s, q, AfterProp(s, q).value)
  {
    var m := RunEnd(s, q, IsSep);
    if m > q {
      RunEndAll(s, q, IsSep);
      BacktrackSound(s, q, m);
    }
  }

  /** A match at st consists of the kind word, a joining run, the property
      name directly after it, separators, an optional quote and the capture. */
  ghost predicate MatchShape(s: string, st: nat, kind: string, prop: string, sp: Span)
  {
    && WordAt(s, st, kind)
    && IsCapture(s, sp)
    && exists e: nat :: ShapeAt(s, st, kind, e, prop, sp)
  }

  /** After the kind word at st: the joining run up to e, the property name
      at e, and the value after it. */
  ghost predicate ShapeAt(s: string, st: nat, kind: string, e: nat, prop: string, sp: Span)
  {
    Joined(s, st + |kind|, e) && WordAt(s, e, prop) && ValueAfter(s, e + |prop|, sp)
  }

  lemma PropSound(s: string, e: nat, prop: string)
    requires e <= |s| && PropAt(s, e, prop).Some?
    ensures WordAt(s, e, prop) && ValueAfter(s, e + |prop|, PropAt(s, e, prop).value)
  {
    AfterPropSound(s, e + |prop|);
  }

  lemma BareSound(s: string, st: nat, kind: string, prop: string, e: nat)
    requires st + |kind| <= |s| && WordAt(s, st, kind)
    requires e == RunEnd(s, st + |kind|, IsSpace) && e >= st + |kind| + 2
    requires PropAt(s, e, prop).Some?
    ensures MatchShape(s, st, kind, prop, PropAt(s, e, prop).value)
  {
    RunEndAll(s, st + |kind|, IsSpace);
    PropSound(s, e, prop);
    assert ShapeAt(s, st, kind, e, prop, PropAt(s, e, prop).value);
  }

  /** A connective match is the word w, a whitespace run, and the property. */
  lemma ViaConnectiveShape(s: string, e: nat, w: string, prop: string)
    requires e <= |s| && ViaConnective(s, e, w, prop).Some?
    ensures WordAt(s, e, w)
    ensures var f := RunEnd(s, e + |w|, IsSpace);
      f > e + |w| && AllIn(s, e + |w|, f, IsSpace) && ViaConnective(s, e, w, prop) == PropAt(s, f, prop)
  {
    RunEndAll(s, e + |w|, IsSpace);
  }

  lemma ConnectiveSound(s: string, st: nat, kind: string, prop: string, e: nat, w: string)
    requires st + |kind| <= |s| && WordAt(s, st, kind)
    requires e == RunEnd(s, st + |kind|, IsSpace) && e > st + |kind|
    requires ViaConnective(s, e, w, prop).Some?
    requires w == "with" || w == "having"
    ensures MatchShape(s, st, kind, prop, ViaConnective(s, e, w, prop).value)
  {
    RunEndAll(s, st + |kind|, IsSpace);
    ViaConnectiveShape(s, e, w, prop);
    var f := RunEnd(s, e + |w|, IsSpace);
    PropSound(s, f, prop);
    assert JoinedVia(s, st + |kind|, e, f, w);
    assert ShapeAt(s, st, kind, f, prop, PropAt(s, f, prop).value);
  }

  /** Every match has the shape the pattern describes. */
  lemma MatchAtSound(s: string, st: nat, kind: string, prop: string)
    requires st <= |s|
    ensures MatchAt(s, st, kind, prop).Some? ==> MatchShape(s, st, kind, prop, MatchAt(s, st, kind, prop).value)
  {
    if WordAt(s, st, kind) {
      var p0 := st + |kind|;
      var e := RunEnd(s, p0, IsSpace);
      if e > p0 {
        if ViaConnective(s, e, "with", prop).Some? {
          ConnectiveSound(s, st, kind, prop, e, "with");
        } else if ViaConnective(s, e, "having", prop).Some? {
          ConnectiveSound(s, st, kind, prop, e, "having");
        } else if e - p0 >= 2 && PropAt(s, e, prop).Some? {
          BareSound(s, st, kind, prop, e);
        }
      }
    }
  }

  /** A separator run followed by a character the capture can start from (or a
      quote and then such a character) always completes the pattern. */
  lemma AfterPropSome(s: string, q: nat, r: nat)
    requires q < r < |s| && AllIn(s, q, r, IsSep)
    requires NotQuote(s[r]) || (r + 1 < |s| && NotQuote(s[r + 1]))
    ensures AfterProp(s, q).Some?
  {
    RunEndPast(s, q, r, IsSep);
    AfterPropShape(s, q);
  }

  /** A run of p-characters from i that stops at j ends at j. */
  lemma RunEndAt(s: string, i: nat, j: nat, p: char -> bool)
    requires AllIn(s, i, j, p) && (j == |s| || !p(s[j]))
    ensures RunEnd(s, i, p) == j
  {
    RunEndPast(s, i, j, p);
    RunEndAll(s, i, p);
  }

  lemma BareComplete(s: string, st: nat, kind: string, prop: string, e: nat)
    requires st <= |s| && WordAt(s, st, kind)
    requires e >= st + |kind| + 2 && AllIn(s, st + |kind|, e, IsSpace)
    requires e < |s| && !IsSpace(s[e]) && PropAt(s, e, prop).Some?
    ensures MatchAt(s, st, kind, prop).Some?
  {
    RunEndAt(s, st + |kind|, e, IsSpace);
  }

  /** The connective w at c, whitespace up to e, and the property at e. */
  lemma ViaConnectiveReaches(s: string, c: nat, w: string, e: nat, prop: string)
    requires c <= |s| && WordAt(s, c, w) && c + |w| < e < |s|
    requires AllIn(s, c + |w|, e, IsSpace) && !IsSpace(s[e])
    ensures ViaConnective(s, c, w, prop) == PropAt(s, e, prop)
  {
    RunEndAt(s, c + |w|, e, IsSpace);
  }

  lemma ConnectiveComplete(s: string, st: nat, kind: string, prop: string, e: nat, w: string)
    requires st <= |s| && WordAt(s, st, kind)
    requires w == "with" || w == "having"
    requires JoinedBy(s, st + |kind|, e, w)
    requires e < |s| && !IsSpace(s[e]) && PropAt(s, e, prop).Some?
    ensures MatchAt(s, st, kind, prop).Some?
  {
    var p0 := st + |kind|;
    var c: nat :| JoinedVia(s, p0, c, e, w);
    assert w[0] == 'w' || w[0] == 'h';
    assert Lower(s[c]) == w[0];
    RunEndAt(s, p0, c, IsSpace);
    ViaConnectiveReaches(s, c, w, e, prop);
  }

  /** Conversely, the kind word, a joining run, the property name and a
      separator run followed by a value character always match at st. */
  lemma MatchAtComplete(s: string, st: nat, kind: string, prop: string, e: nat, r: nat)
    requires st <= |s| && prop != [] && !IsSpace(prop[0])
    requires WordAt(s, st, kind) && Joined(s, st + |kind|, e) && WordAt(s, e, prop)
    requires e + |prop| < r < |s| && AllIn(s, e + |prop|, r, IsSep)
    requires NotQuote(s[r]) || (r + 1 < |s| && NotQuote(s[r + 1]))
    ensures MatchAt(s, st, kind, prop).Some?
  {
    var p0 := st + |kind|;
    assert Lower(s[e]) == prop[0];
    AfterPropSome(s, e + |prop|, r);
    if JoinedBy(s, p0, e, "with") {
      ConnectiveComplete(s, st, kind, prop, e, "with");
    } else if JoinedBy(s, p0, e, "having") {
      ConnectiveComplete(s, st, kind, prop, e, "having");
    } else {
      BareComplete(s, st, kind, prop, e);
    }
  }

  /** The pattern matches first at st, and the capture there is v. */
  ghost predicate LeftmostAt(s: string, kind: string, prop: string, st: nat, v: string)
  {
    && st <= |s|
    && MatchAt(s, st, kind, prop).Some?
    && (forall st' :: 0 <= st' < st ==> MatchAt(s, st', kind, prop).None?)
    && v == s[MatchAt(s, st, kind, prop).value.start..MatchAt(s, st, kind, prop).value.end]
  }

  /** `match` fails exactly when no start position matches, and otherwise
      yields the capture of the leftmost one. */
  lemma MatchIsLeftmost(s: string, kind: string, prop: string)
    ensures Match(s, kind, prop).None? <==> forall st :: 0 <= st <= |s| ==> MatchAt(s, st, kind, prop).None?
    ensures Match(s, kind, prop).Some? ==> exists st :: LeftmostAt(s, kind, prop, st, Match(s, kind, prop).value)
  {
    var xs := Attempts(s, kind, prop);
    var f := FirstSome(xs, 0);
    if f.Some? {
      assert LeftmostAt(s, kind, prop, f.value, Match(s, kind, prop).value);
    }
  }

  /** After p0 there is at most one whitespace character and then neither
      connective, as after `hero` in `hero section with ...`. */
  predicate Unjoined(s: string, p0: nat)
  {
    && p0 <= |s|
    && var e := RunEnd(s, p0, IsSpace);
      e - p0 < 2 && !WordAt(s, e, "with") && !WordAt(s, e, "having")
  }

  /** When every occurrence of the kind word is unjoined, the pattern matches
      nowhere, whatever the property name: a single space between the kind and
      the property is only allowed around a connective. */
  lemma UnjoinedNoMatch(s: string, kind: string, prop: string)
    requires forall st :: 0 <= st <= |s| && WordAt(s, st, kind) ==> Unjoined(s, st + |kind|)
    ensures Match(s, kind, prop).None?
  {
    forall st | 0 <= st <= |s|
      ensures MatchAt(s, st, kind, prop).None?
    {
      if WordAt(s, st, kind) {
        assert Unjoined(s, st + |kind|);
      }
    }
    MatchIsLeftmost(s, kind, prop);
  }

  lemma WordAtContains(s: string, i: nat, w: string)
    requires WordAt(s, i, w)
    ensures Contains(LowerStr(s), w)
  {
    assert LowerStr(s)[i..i + |w|] == w;
    assert Occurs(LowerStr(s), i, w);
  }

  /** The regex matches only where both the kind word and the property name
      occur (case-insensitively) in the text. */
  lemma MatchNeedsWords(s: string, kind: string, prop: string)
    ensures Match(s, kind, prop).Some? ==> Contains(LowerStr(s), kind) && Contains(LowerStr(s), prop)
  {
    var xs := Attempts(s, kind, prop);
    var f := FirstSome(xs, 0);
    if f.Some? {
      var st := f.value;
      MatchAtSound(s, st, kind, prop);
      WordAtContains(s, st, kind);
      assert MatchShape(s, st, kind, prop, xs[st].value);
      var e: nat :| ShapeAt(s, st, kind, e, prop, xs[st].value);
      WordAtContains(s, e, prop);
    }
  }

  lemma {:induction false} RefSpaces2Capture(s: string, c: nat, e: nat, prop: string)
    requires c <= e <= |s|
    ensures RefSpaces2(s, c, e, prop).Some? ==> IsCapture(s, RefSpaces2(s, c, e, prop).value)
    decreases e
  {
    if e > c {
      RefSpaces2Capture(s, c, e - 1, prop);
    }
  }

  lemma RefGroupCapture(s: string, e: nat, prop: string)
    requires e <= |s|
    ensures RefGroup(s, e, prop).Some? ==> IsCapture(s, RefGroup(s, e, prop).value)
  {
    RefSpaces2Capture(s, e, RunEnd(s, e, IsSpace), prop);
    if WordAt(s, e, "with") {
      RefSpaces2Capture(s, e + 4, RunEnd(s, e + 4, IsSpace), prop);
    }
    if WordAt(s, e, "having") {
      RefSpaces2Capture(s, e + 6, RunEnd(s, e + 6, IsSpace), prop);
    }
  }

  lemma {:induction false} RefSpaces1Capture(s: string, p0: nat, e: nat, prop: string)
    requires p0 <= e <= |s|
    ensures RefSpaces1(s, p0, e, prop).Some? ==> IsCapture(s, RefSpaces1(s, p0, e, prop).value)
    decreases e
  {
    if e > p0 {
      RefGroupCapture(s, e, prop);
      RefSpaces1Capture(s, p0, e - 1, prop);
    }
  }

  /** Whatever the reference matches is a capture of the text. */
  lemma RefAtCapture(s: string, st: nat, kind: string, prop: string)
    requires st <= |s|
    ensures RefAt(s, st, kind, prop).Some? ==> IsCapture(s, RefAt(s, st, kind, prop).value)
  {
    if WordAt(s, st, kind) {
      RefSpaces1Capture(s, st + |kind|, RunEnd(s, st + |kind|, IsSpace), prop);
    }
  }

  /** Searching with the reference from st finds what the first success of
      the attempts at or after st holds. */
  lemma {:induction false} RefSearchIsFirstSome(s: string, st: nat, kind: string, prop: string)
    requires st <= |s| + 1
    requires prop != [] && !IsSpace(prop[0])
    ensures var xs := Attempts(s, kind, prop);
      var f := FirstSome(xs, st);
      RefSearch(s, st, kind, prop) == if f.Some? then xs[f.value] else None
    decreases |s| + 1 - st
  {
    if st <= |s| {
      MatchAtIsBacktracking(s, st, kind, prop);
      if RefAt(s, st, kind, prop).None? {
        RefSearchIsFirstSome(s, st + 1, kind, prop);
      }
    }
  }

  /** The hand-written matcher and the backtracking reference agree on every
      text, for every property name that starts with a non-space character. */
  lemma RefMatchIsMatch(s: string, kind: string, prop: string)
    requires prop != [] && !IsSpace(prop[0])
    ensures RefMatch(s, kind, prop) == Match(s, kind, prop)
  {
    RefSearchIsFirstSome(s, 0, kind, prop);
  }
}
