/**
 * The slot extractor of src/lib/agents/CommandAgent.ts (`extractParameters`).
 * Each regular expression it applies is modelled by the shape it has, with the
 * behaviour a backtracking engine gives it: the match starts at the leftmost
 * position where it can succeed, greedy runs give characters back one at a
 * time, and a lazy group takes the fewest characters that let the rest match.
 * Letters are compared ignoring ASCII case (the `i` flag); `.` matches anything
 * but a line terminator. In every alternation used here no two alternatives can
 * start at the same position, so the first one that occurs is the one taken.
 */
module Extraction {
  import opened Common
  import opened Strings

  // ---------------------------------------------------------------------------
  // Building blocks

  /** The end of the longest run of characters satisfying `p` that starts at `i`. */
  function SpanEnd(s: string, i: nat, p: char -> bool): (e: nat)
    requires i <= |s|
    ensures i <= e <= |s|
    ensures forall k | i <= k < e :: p(s[k])
    ensures e == |s| || !p(s[e])
    decreases |s| - i
  {
    if i < |s| && p(s[i]) then SpanEnd(s, i + 1, p) else i
  }

  /** The end of the word of `words` that occurs at `i` (an alternation `(?:w1|w2|...)`). */
  function WordAt(s: string, words: seq<string>, i: nat): (r: Option<nat>)
    ensures r.Some? ==> r.value <= |s|
    ensures r.Some? ==> exists k | 0 <= k < |words| :: OccursAtIgnoringCase(s, words[k], i) && r.value == i + |words[k]|
    ensures r.None? <==> forall k | 0 <= k < |words| :: !OccursAtIgnoringCase(s, words[k], i)
  {
    if words == [] then None
    else if OccursAtIgnoringCase(s, words[0], i) then Some(i + |words[0]|)
    else
      var r := WordAt(s, words[1..], i);
      assert forall k | 1 <= k < |words| :: words[k] == words[1..][k - 1];
      r
  }

  predicate IsColonOrSpace(c: char)
  {
    c == ':' || IsSpace(c)
  }

  predicate NotSpace(c: char)
  {
    !IsSpace(c)
  }

  predicate NotLineTerminator(c: char)
  {
    !IsLineTerminator(c)
  }

  /** The characters of `[^.!?]`. */
  predicate NotSentenceEnd(c: char)
  {
    c != '.' && c != '!' && c != '?'
  }

  /** A capture: the start and end of the captured group. */
  type Span = (nat, nat)

  predicate SpanIn(s: string, r: Option<Span>)
  {
    r.Some? ==> r.value.0 <= r.value.1 <= |s|
  }

  /**
   * A match searched from `i` on: the capture of the leftmost position at which `at` finds
   * one, as `String.prototype.match` without the `g` flag returns it.
   */
  function Leftmost(s: string, i: nat, at: nat -> Option<Span>): (r: Option<Span>)
    requires i <= |s|
    ensures r.Some? ==> exists k | i <= k <= |s| :: at(k) == r && forall m | i <= m < k :: at(m).None?
    ensures r.None? ==> forall k | i <= k <= |s| :: at(k).None?
    decreases |s| - i
  {
    if at(i).Some? then at(i)
    else if i == |s| then None
    else Leftmost(s, i + 1, at)
  }

  /** The leftmost position that matches is the one whose capture is returned. */
  lemma {:induction false} LeftmostIs(s: string, i: nat, k: nat, at: nat -> Option<Span>)
    requires i <= k <= |s|
    requires at(k).Some? && forall m | i <= m < k :: at(m).None?
    ensures Leftmost(s, i, at) == at(k)
    decreases k - i
  {
    if i < k {
      LeftmostIs(s, i + 1, k, at);
    }
  }

  /** The captured text of a search, if it matched. */
  function Captured(s: string, r: Option<Span>): (c: Option<string>)
    requires SpanIn(s, r)
    ensures c.Some? <==> r.Some?
    ensures c.Some? ==> c.value == s[r.value.0..r.value.1]
  {
    if r.Some? then Some(s[r.value.0..r.value.1]) else None
  }

  // ---------------------------------------------------------------------------
  // Lazy captures: `LEAD[:\s]*(.+?)(?:\s*STOP\s*|...|\s*$)`

  /**
   * A rule with a lazy group: one of `leads`, then (when `objects` is not empty) at least one
   * space and one of `objects`, then a run of `[:\s]`, then the shortest non-empty group that
   * is followed by optional spaces and one of `stops`, or by optional spaces and the end.
   */
  datatype LazyRule = LazyRule(leads: seq<string>, objects: seq<string>, stops: seq<string>)

  /** `(?:create|add|new)\s+(?:task|todo)[:\s]*(.+?)(?:\s*for\s*|\s*due\s*|\s*$)` */
  const TaskTitleRule := LazyRule(["create", "add", "new"], ["task", "todo"], ["for", "due"])

  /** `(?:create|schedule|add)\s+(?:event|meeting|appointment)[:\s]*(.+?)(?:\s*at\s*|\s*on\s*|\s*$)` */
  const EventTitleRule := LazyRule(["create", "schedule", "add"], ["event", "meeting", "appointment"], ["at", "on"])

  /**
   * `(?:subject|about)\s*[:\s]*(.+?)(?:\s*saying\s*|\s*content\s*|\s*$)`; the `\s*` before the
   * `[:\s]*` run gives back the same positions in the same order, so it adds nothing.
   */
  const SubjectRule := LazyRule(["subject", "about"], [], ["saying", "content"])

  /** The end of the rule's lead phrase when it occurs at `i`. */
  function LeadEnd(s: string, rule: LazyRule, i: nat): (r: Option<nat>)
    ensures r.Some? ==> r.value <= |s|
    ensures r.Some? ==> WordAt(s, rule.leads, i).Some?
    ensures r.Some? && rule.objects != [] ==>
              var l := WordAt(s, rule.leads, i).value;
              var e := SpanEnd(s, l, IsSpace);
              l < e && r == WordAt(s, rule.objects, e)
    ensures r.Some? && rule.objects == [] ==> r == WordAt(s, rule.leads, i)
  {
    match WordAt(s, rule.leads, i)
    case None => None
    case Some(l) =>
      if rule.objects == [] then Some(l)
      else
        var e := SpanEnd(s, l, IsSpace);
        if e == l then None
        else WordAt(s, rule.objects, e)
  }

  /** At `j` a stop is found: optional spaces, then one of `stops` or the end of the text. */
  predicate StopAt(s: string, j: nat, stops: seq<string>)
    requires j <= |s|
  {
    var e := SpanEnd(s, j, IsSpace);
    e == |s| || WordAt(s, stops, e).Some?
  }

  /**
   * The lazy group, already covering the characters before `j`, grown one character at a
   * time until a stop follows it; it cannot take a line terminator.
   */
  function LazyEnd(s: string, j: nat, stops: seq<string>): (r: Option<nat>)
    requires j <= |s|
    ensures r.Some? ==> j <= r.value <= |s| && StopAt(s, r.value, stops)
    ensures r.Some? ==> forall k | j <= k < r.value :: !StopAt(s, k, stops) && !IsLineTerminator(s[k])
    ensures (forall k | j <= k < |s| :: !IsLineTerminator(s[k])) ==> r.Some?
    decreases |s| - j
  {
    if StopAt(s, j, stops) then Some(j)
    else if j < |s| && !IsLineTerminator(s[j]) then LazyEnd(s, j + 1, stops)
    else None
  }

  /** The lazy group starting at `q`: at least one character, then as few as a stop allows. */
  function LazyGroup(s: string, q: nat, stops: seq<string>): (r: Option<nat>)
    requires q <= |s|
    ensures r.Some? ==> q < r.value <= |s| && StopAt(s, r.value, stops)
    ensures r.Some? ==> forall k | q < k < r.value :: !StopAt(s, k, stops)
    ensures r.Some? ==> forall k | q <= k < r.value :: !IsLineTerminator(s[k])
    ensures q < |s| && (forall k | q <= k < |s| :: !IsLineTerminator(s[k])) ==> r.Some?
  {
    if q < |s| && !IsLineTerminator(s[q]) then LazyEnd(s, q + 1, stops) else None
  }

  /** The `[:\s]*` run gives back characters one at a time: the group is tried from `q` down to `lo`. */
  function LazyFrom(s: string, lo: nat, q: nat, stops: seq<string>): (r: Option<Span>)
    requires lo <= q <= |s|
    ensures SpanIn(s, r)
    ensures r.Some? ==> lo <= r.value.0 <= q && LazyGroup(s, r.value.0, stops) == Some(r.value.1)
    ensures LazyGroup(s, q, stops).Some? ==> r == Some((q, LazyGroup(s, q, stops).value))
    decreases q
  {
    match LazyGroup(s, q, stops)
    case Some(e) => Some((q, e))
    case None =>
      if q == lo then None
      else LazyFrom(s, lo, q - 1, stops)
  }

  /** The rule matched at position `i`, and its capture. */
  function LazyAt(s: string, rule: LazyRule, i: nat): (r: Option<Span>)
    ensures SpanIn(s, r)
    ensures r.Some? ==> LeadEnd(s, rule, i).Some?
  {
    match LeadEnd(s, rule, i)
    case None => None
    case Some(l) => LazyFrom(s, l, SpanEnd(s, l, IsColonOrSpace), rule.stops)
  }

  /** The leftmost match of a lazy rule; it exists only where the lead phrase occurs. */
  function LazyMatch(s: string, rule: LazyRule): (m: Option<Span>)
    ensures SpanIn(s, m)
    ensures m.Some? ==> exists i | 0 <= i <= |s| :: LeadEnd(s, rule, i).Some? && LazyAt(s, rule, i) == m
  {
    Leftmost(s, 0, k => LazyAt(s, rule, k))
  }

  /** The trimmed capture of a lazy rule at its leftmost match. */
  function LazySlot(s: string, rule: LazyRule): (r: Option<string>)
    ensures r.Some? <==> LazyMatch(s, rule).Some?
    ensures r.Some? ==> r.value == Trim(s[LazyMatch(s, rule).value.0..LazyMatch(s, rule).value.1])
  {
    match Captured(s, LazyMatch(s, rule))
    case None => None
    case Some(c) => Some(Trim(c))
  }

  /** A lazy rule yields nothing unless its lead phrase occurs somewhere in the text. */
  lemma LazySlotNeedsLead(s: string, rule: LazyRule)
    requires LazySlot(s, rule).Some?
    ensures exists i | 0 <= i <= |s| :: LeadEnd(s, rule, i).Some?
  {
    assert LazyMatch(s, rule).Some?;
  }

  /**
   * On a text without line breaks whose first lead phrase ends at `l`, with something after
   * the `[:\s]` run that follows it, the slot is that text, from the end of the run up to the
   * first place where optional spaces and a stop word (or the end) follow, trimmed.
   */
  lemma {:induction false} LazySlotOnOneLine(s: string, rule: LazyRule, i: nat, l: nat)
    requires forall k | 0 <= k < |s| :: !IsLineTerminator(s[k])
    requires i <= |s| && LeadEnd(s, rule, i) == Some(l)
    requires forall m | 0 <= m < i :: LeadEnd(s, rule, m).None?
    requires SpanEnd(s, l, IsColonOrSpace) < |s|
    ensures var q := SpanEnd(s, l, IsColonOrSpace);
            exists e | q < e <= |s| ::
              StopAt(s, e, rule.stops) && (forall k | q < k < e :: !StopAt(s, k, rule.stops))
              && LazySlot(s, rule) == Some(Trim(s[q..e]))
  {
    var q := SpanEnd(s, l, IsColonOrSpace);
    LazyMatchAtFirstLead(s, rule, i, l);
    SlotOfLazyGroup(s, rule, q);
  }

  /** When the leftmost match starts at `q`, the slot is the trimmed lazy group from `q`. */
  lemma SlotOfLazyGroup(s: string, rule: LazyRule, q: nat)
    requires q <= |s| && LazyGroup(s, q, rule.stops).Some?
    requires LazyMatch(s, rule) == Some((q, LazyGroup(s, q, rule.stops).value))
    ensures exists e | q < e <= |s| ::
              StopAt(s, e, rule.stops) && (forall k | q < k < e :: !StopAt(s, k, rule.stops))
              && LazySlot(s, rule) == Some(Trim(s[q..e]))
  {
    var e := LazyGroup(s, q, rule.stops).value;
    assert LazySlot(s, rule) == Some(Trim(s[q..e]));
  }

  /** The leftmost match of a lazy rule is the one at the first position where its lead phrase occurs. */
  lemma LazyMatchAtFirstLead(s: string, rule: LazyRule, i: nat, l: nat)
    requires forall k | 0 <= k < |s| :: !IsLineTerminator(s[k])
    requires i <= |s| && LeadEnd(s, rule, i) == Some(l)
    requires forall m | 0 <= m < i :: LeadEnd(s, rule, m).None?
    requires SpanEnd(s, l, IsColonOrSpace) < |s|
    ensures var q := SpanEnd(s, l, IsColonOrSpace);
            LazyGroup(s, q, rule.stops).Some? && LazyMatch(s, rule) == Some((q, LazyGroup(s, q, rule.stops).value))
  {
    var at: nat -> Option<Span> := k => LazyAt(s, rule, k);
    var q := SpanEnd(s, l, IsColonOrSpace);
    var e := LazyGroup(s, q, rule.stops).value;
    assert LazyAt(s, rule, i) == Some((q, e));
    forall m | 0 <= m < i ensures at(m).None? {
      assert LeadEnd(s, rule, m).None?;
    }
    LeftmostIs(s, 0, i, at);
  }

  // ---------------------------------------------------------------------------
  // Greedy tails: `(?:w1|w2)\s+(X+)`

  /**
   * One of `words`, at least one space, then the longest non-empty run of `cls` characters.
   * When the spaces reach a character outside `cls` (or the end), the space run gives back
   * characters, so the capture starts at the last position from which `cls` can match.
   */
  function TailAt(s: string, words: seq<string>, cls: char -> bool, i: nat): (r: Option<Span>)
    ensures SpanIn(s, r)
    ensures r.Some? ==> r.value.0 < r.value.1
    ensures r.Some? ==> forall k | r.value.0 <= k < r.value.1 :: cls(s[k])
    ensures r.Some? ==> r.value.1 == |s| || !cls(s[r.value.1])
    ensures r.Some? ==> WordAt(s, words, i).Some?
  {
    match WordAt(s, words, i)
    case None => None
    case Some(l) =>
      var e := SpanEnd(s, l, IsSpace);
      if e == l then None
      else
        match LastStart(s, l + 1, e, cls)
        case None => None
        case Some(c) => Some((c, SpanEnd(s, c, cls)))
  }

  /** The largest position in `[lo, c]` holding a `cls` character. */
  function LastStart(s: string, lo: nat, c: nat, cls: char -> bool): (r: Option<nat>)
    requires lo <= c
    ensures r.Some? ==> lo <= r.value <= c && r.value < |s| && cls(s[r.value])
    ensures r.Some? ==> forall p | r.value < p <= c :: p >= |s| || !cls(s[p])
    decreases c
  {
    if c < |s| && cls(s[c]) then Some(c)
    else if c == lo then None
    else LastStart(s, lo, c - 1, cls)
  }

  /**
   * The leftmost greedy-tail match: the capture at the first position where one of the words is
   * followed by spaces and a `cls` run, and none when no position has one.
   */
  function TailMatch(s: string, words: seq<string>, cls: char -> bool): (m: Option<Span>)
    ensures SpanIn(s, m)
    ensures m.Some? ==> forall k | m.value.0 <= k < m.value.1 :: cls(s[k])
    ensures m.Some? ==> exists i | 0 <= i <= |s| ::
              TailAt(s, words, cls, i) == m && forall j | 0 <= j < i :: TailAt(s, words, cls, j).None?
    ensures m.None? ==> forall i | 0 <= i <= |s| :: TailAt(s, words, cls, i).None?
  {
    var at: nat -> Option<Span> := k => TailAt(s, words, cls, k);
    var m := Leftmost(s, 0, at);
    assert m.Some? ==> exists i | 0 <= i <= |s| ::
             TailAt(s, words, cls, i) == m && forall j | 0 <= j < i :: TailAt(s, words, cls, j).None? by {
      if m.Some? {
        var i :| 0 <= i <= |s| && at(i) == m && forall j | 0 <= j < i :: at(j).None?;
        assert TailAt(s, words, cls, i) == m;
        forall j | 0 <= j < i ensures TailAt(s, words, cls, j).None? { assert at(j).None?; }
      }
    }
    assert m.None? ==> forall i | 0 <= i <= |s| :: TailAt(s, words, cls, i).None? by {
      if m.None? {
        forall i | 0 <= i <= |s| ensures TailAt(s, words, cls, i).None? { assert at(i).None?; }
      }
    }
    m
  }

  /** The trimmed capture of a greedy tail at its leftmost match. */
  function TailSlot(s: string, words: seq<string>, cls: char -> bool): (r: Option<string>)
    ensures r.Some? <==> TailMatch(s, words, cls).Some?
    ensures r.Some? ==> r.value == Trim(s[TailMatch(s, words, cls).value.0..TailMatch(s, words, cls).value.1])
    ensures r.Some? ==> forall k | 0 <= k < |r.value| :: cls(r.value[k])
  {
    var m := TailMatch(s, words, cls);
    match Captured(s, m)
    case None => None
    case Some(c) =>
      SliceOf(s, m.value.0, m.value.1, cls);
      TrimSubsetOf(c, cls);
      Some(Trim(c))
  }

  /** A slice of characters that all satisfy `cls`. */
  lemma SliceOf(s: string, a: nat, b: nat, cls: char -> bool)
    requires a <= b <= |s| && forall k | a <= k < b :: cls(s[k])
    ensures forall k | 0 <= k < b - a :: cls(s[a..b][k])
  {
    forall k | 0 <= k < b - a ensures cls(s[a..b][k]) {
      assert s[a..b][k] == s[a + k];
    }
  }

  /** Trimming keeps only characters of the string. */
  lemma TrimSubsetOf(c: string, cls: char -> bool)
    requires forall k | 0 <= k < |c| :: cls(c[k])
    ensures forall k | 0 <= k < |Trim(c)| :: cls(Trim(c)[k])
  {
    var t := TrimStart(c);
    var r := TrimEnd(t);
    TrimBothEnds(c, t, r);
    var d := |c| - |t|;
    assert t == c[d..];
    forall k | 0 <= k < |t| ensures cls(t[k]) {
      assert c[d..][k] == c[d + k];
    }
    forall k | 0 <= k < |r| ensures cls(r[k]) {
      assert r[k] == t[k];
    }
  }

  /** `(?:due|for)\s+([^.!?]+)` */
  function DueDate(s: string): (r: Option<string>)
    ensures r.Some? <==> TailMatch(s, ["due", "for"], NotSentenceEnd).Some?
    ensures r.Some? ==> r.value == Trim(s[TailMatch(s, ["due", "for"], NotSentenceEnd).value.0..TailMatch(s, ["due", "for"], NotSentenceEnd).value.1])
    ensures r.Some? ==> forall k | 0 <= k < |r.value| :: NotSentenceEnd(r.value[k])
  {
    TailSlot(s, ["due", "for"], NotSentenceEnd)
  }

  /** `(?:at|on)\s+([^.!?]+)` */
  function DateTime(s: string): (r: Option<string>)
    ensures r.Some? <==> TailMatch(s, ["at", "on"], NotSentenceEnd).Some?
    ensures r.Some? ==> r.value == Trim(s[TailMatch(s, ["at", "on"], NotSentenceEnd).value.0..TailMatch(s, ["at", "on"], NotSentenceEnd).value.1])
    ensures r.Some? ==> forall k | 0 <= k < |r.value| :: NotSentenceEnd(r.value[k])
  {
    TailSlot(s, ["at", "on"], NotSentenceEnd)
  }

  /** `(?:at|in)\s+([^.!?]+)` */
  function Location(s: string): (r: Option<string>)
    ensures r.Some? <==> TailMatch(s, ["at", "in"], NotSentenceEnd).Some?
    ensures r.Some? ==> r.value == Trim(s[TailMatch(s, ["at", "in"], NotSentenceEnd).value.0..TailMatch(s, ["at", "in"], NotSentenceEnd).value.1])
    ensures r.Some? ==> forall k | 0 <= k < |r.value| :: NotSentenceEnd(r.value[k])
  {
    TailSlot(s, ["at", "in"], NotSentenceEnd)
  }

  /** `(?:search|find|look up|research)\s+(.+)` */
  function Query(s: string): (r: Option<string>)
    ensures r.Some? <==> TailMatch(s, ["search", "find", "look up", "research"], NotLineTerminator).Some?
    ensures r.Some? ==> r.value == Trim(s[TailMatch(s, ["search", "find", "look up", "research"], NotLineTerminator).value.0..TailMatch(s, ["search", "find", "look up", "research"], NotLineTerminator).value.1])
    ensures r.Some? ==> forall k | 0 <= k < |r.value| :: !IsLineTerminator(r.value[k])
  {
    TailSlot(s, ["search", "find", "look up", "research"], NotLineTerminator)
  }

  // ---------------------------------------------------------------------------
  // The recipient: `(?:to|for)\s+([a-zA-Z0-9._%+-]+@[a-zA-Z0-9.-]+\.[a-zA-Z]{2,})`

  predicate IsAsciiLetter(c: char)
  {
    ('a' <= c <= 'z') || ('A' <= c <= 'Z')
  }

  predicate IsAsciiAlnum(c: char)
  {
    IsAsciiLetter(c) || ('0' <= c <= '9')
  }

  /** `[a-zA-Z0-9._%+-]` */
  predicate IsLocalChar(c: char)
  {
    IsAsciiAlnum(c) || c == '.' || c == '_' || c == '%' || c == '+' || c == '-'
  }

  /** `[a-zA-Z0-9.-]` */
  predicate IsDomainChar(c: char)
  {
    IsAsciiAlnum(c) || c == '.' || c == '-'
  }

  /** The address shape the capture has: local part, '@', domain, '.', two or more letters. */
  predicate AddressShaped(a: string)
  {
    exists at: nat, dot: nat | at < dot < |a| - 2 ::
      a[at] == '@' && a[dot] == '.' && 0 < at && at + 1 < dot
      && (forall k | 0 <= k < at :: IsLocalChar(a[k]))
      && (forall k | at < k < dot :: IsDomainChar(a[k]))
      && (forall k | dot < k < |a| :: IsAsciiLetter(a[k]))
  }

  /**
   * The domain run gives back characters until it is followed by a '.' and at least two
   * letters: the last such dot in `(lo, p]` is where the top-level part starts.
   */
  function LastDot(s: string, lo: nat, p: nat): (r: Option<nat>)
    requires lo <= p
    ensures r.Some? ==> lo < r.value <= p && r.value < |s| && s[r.value] == '.'
    ensures r.Some? ==> SpanEnd(s, r.value + 1, IsAsciiLetter) >= r.value + 3
    decreases p
  {
    if p == lo then None
    else if p < |s| && s[p] == '.' && SpanEnd(s, p + 1, IsAsciiLetter) >= p + 3 then Some(p)
    else LastDot(s, lo, p - 1)
  }

  function AddressAt(s: string, i: nat): (r: Option<Span>)
    ensures SpanIn(s, r)
    ensures r.Some? ==> AddressShaped(s[r.value.0..r.value.1])
  {
    match WordAt(s, ["to", "for"], i)
    case None => None
    case Some(l) =>
      var e := SpanEnd(s, l, IsSpace);
      var a := SpanEnd(s, e, IsLocalChar);
      if e == l || a == e || a == |s| || s[a] != '@' then None
      else
        var d := SpanEnd(s, a + 1, IsDomainChar);
        if d == a + 1 then None
        else
          match LastDot(s, a + 1, d - 1)
          case None => None
          case Some(dot) =>
            var end := SpanEnd(s, dot + 1, IsAsciiLetter);
            AddressSlice(s, e, a, dot, end);
            Some((e, end))
  }

  lemma AddressSlice(s: string, e: nat, a: nat, dot: nat, end: nat)
    requires e < a < dot && dot + 2 < end <= |s|
    requires s[a] == '@' && s[dot] == '.' && a + 1 < dot
    requires forall k | e <= k < a :: IsLocalChar(s[k])
    requires forall k | a < k < dot :: IsDomainChar(s[k])
    requires forall k | dot < k < end :: IsAsciiLetter(s[k])
    ensures AddressShaped(s[e..end])
  {
    var c := s[e..end];
    assert c[a - e] == '@' && c[dot - e] == '.';
    assert forall k | 0 <= k < a - e :: IsLocalChar(c[k]) by {
      forall k | 0 <= k < a - e ensures IsLocalChar(c[k]) { assert c[k] == s[e + k]; }
    }
    assert forall k | a - e < k < dot - e :: IsDomainChar(c[k]) by {
      forall k | a - e < k < dot - e ensures IsDomainChar(c[k]) { assert c[k] == s[e + k]; }
    }
    assert forall k | dot - e < k < |c| :: IsAsciiLetter(c[k]) by {
      forall k | dot - e < k < |c| ensures IsAsciiLetter(c[k]) { assert c[k] == s[e + k]; }
    }
  }

  /** The leftmost recipient match: the address after the first "to" or "for" that is followed by one. */
  function AddressMatch(s: string): (m: Option<Span>)
    ensures SpanIn(s, m)
    ensures m.Some? ==> exists i | 0 <= i <= |s| ::
              AddressAt(s, i) == m && forall j | 0 <= j < i :: AddressAt(s, j).None?
    ensures m.None? ==> forall i | 0 <= i <= |s| :: AddressAt(s, i).None?
  {
    var at: nat -> Option<Span> := k => AddressAt(s, k);
    var m := Leftmost(s, 0, at);
    assert m.Some? ==> exists i | 0 <= i <= |s| ::
             AddressAt(s, i) == m && forall j | 0 <= j < i :: AddressAt(s, j).None? by {
      if m.Some? {
        var i :| 0 <= i <= |s| && at(i) == m && forall j | 0 <= j < i :: at(j).None?;
        assert AddressAt(s, i) == m;
        forall j | 0 <= j < i ensures AddressAt(s, j).None? { assert at(j).None?; }
      }
    }
    assert m.None? ==> forall i | 0 <= i <= |s| :: AddressAt(s, i).None? by {
      if m.None? {
        forall i | 0 <= i <= |s| ensures AddressAt(s, i).None? { assert at(i).None?; }
      }
    }
    m
  }

  /** The recipient slot: the captured address of the leftmost match, untrimmed. */
  function Recipient(s: string): (r: Option<string>)
    ensures r.Some? <==> AddressMatch(s).Some?
    ensures r.Some? ==> r.value == s[AddressMatch(s).value.0..AddressMatch(s).value.1]
    ensures r.Some? ==> AddressShaped(r.value)
  {
    var m := AddressMatch(s);
    assert m.Some? ==> AddressShaped(s[m.value.0..m.value.1]) by {
      if m.Some? {
        var i :| 0 <= i <= |s| && AddressAt(s, i) == m;
      }
    }
    Captured(s, m)
  }

  // ---------------------------------------------------------------------------
  // The url: `(https?:\/\/[^\s]+)`

  /** `https://` is tried before `http://`; at least one non-space character must follow. */
  function UrlAt(s: string, i: nat): (r: Option<Span>)
    ensures SpanIn(s, r)
    ensures r.Some? ==> r.value.0 == i
    ensures r.Some? ==> OccursAtIgnoringCase(s, "https://", i) || OccursAtIgnoringCase(s, "http://", i)
    ensures r.Some? ==> forall k | i <= k < r.value.1 :: !IsSpace(s[k])
    ensures r.Some? ==> r.value.1 == |s| || IsSpace(s[r.value.1])
  {
    if OccursAtIgnoringCase(s, "https://", i) && i + 8 < |s| && !IsSpace(s[i + 8]) then
      SchemeHasNoSpace(s, "https://", i);
      Some((i, SpanEnd(s, i + 8, NotSpace)))
    else if OccursAtIgnoringCase(s, "http://", i) && i + 7 < |s| && !IsSpace(s[i + 7]) then
      SchemeHasNoSpace(s, "http://", i);
      Some((i, SpanEnd(s, i + 7, NotSpace)))
    else None
  }

  lemma SchemeHasNoSpace(s: string, scheme: string, i: nat)
    requires scheme == "https://" || scheme == "http://"
    requires OccursAtIgnoringCase(s, scheme, i)
    ensures forall k | i <= k < i + |scheme| :: !IsSpace(s[k])
  {
    SpaceIgnoringCase(s, scheme, i);
    assert forall k | 0 <= k < |scheme| :: !IsSpace(scheme[k]);
  }

  /** The url slot: the first `http://` or `https://` followed by a run of non-space characters. */
  function Url(s: string): (r: Option<string>)
    ensures r.Some? <==> UrlMatch(s).Some?
    ensures r.Some? ==> r.value == s[UrlMatch(s).value.0..UrlMatch(s).value.1]
  {
    Captured(s, UrlMatch(s))
  }

  /** The leftmost url match. */
  function UrlMatch(s: string): (m: Option<Span>)
    ensures SpanIn(s, m)
    ensures m.Some? ==> exists i | 0 <= i <= |s| :: UrlAt(s, i) == m && forall j | 0 <= j < i :: UrlAt(s, j).None?
  {
    var at: nat -> Option<Span> := k => UrlAt(s, k);
    var m := Leftmost(s, 0, at);
    assert m.Some? ==> exists i | 0 <= i <= |s| :: UrlAt(s, i) == m && forall j | 0 <= j < i :: UrlAt(s, j).None? by {
      if m.Some? {
        var i :| 0 <= i <= |s| && at(i) == m && forall j | 0 <= j < i :: at(j).None?;
        assert UrlAt(s, i) == m;
        forall j | 0 <= j < i ensures UrlAt(s, j).None? { assert at(j).None?; }
      }
    }
    m
  }

  /** `u` is a url beginning at `i`: no url starts earlier, `u` follows a scheme and ends at a space or the end. */
  predicate UrlStartsAt(s: string, u: string, i: nat)
  {
    && i <= |s|
    && (forall j | 0 <= j < i :: UrlAt(s, j).None?)
    && OccursAt(s, u, i)
    && (OccursAtIgnoringCase(s, "https://", i) || OccursAtIgnoringCase(s, "http://", i))
    && (i + |u| == |s| || IsSpace(s[i + |u|]))
  }

  /**
   * A url slot starts with `http://` or `https://` (in any case), is followed by a space or the
   * end, contains no space, and starts at the first position where such a url begins.
   */
  lemma UrlShape(s: string)
    requires Url(s).Some?
    ensures exists i | 0 <= i <= |s| :: UrlStartsAt(s, Url(s).value, i)
    ensures NoSpace(Url(s).value)
  {
    var m := UrlMatch(s);
    var i :| 0 <= i <= |s| && UrlAt(s, i) == m && forall j | 0 <= j < i :: UrlAt(s, j).None?;
    var e := m.value.1;
    assert m == Some((i, e));
    assert Url(s).value == s[i..e];
    UrlShapeAt(s, i, e);
  }

  /** The shape of the url matched from `i` to `e` when no url starts before `i`. */
  lemma UrlShapeAt(s: string, i: nat, e: nat)
    requires UrlAt(s, i) == Some((i, e)) && forall j | 0 <= j < i :: UrlAt(s, j).None?
    ensures e <= |s|
    ensures UrlStartsAt(s, s[i..e], i)
    ensures NoSpace(s[i..e])
  {
    NoSpaceSlice(s, i, e);
  }

  /** A slice of characters none of which is a space. */
  lemma NoSpaceSlice(s: string, a: nat, b: nat)
    requires a <= b <= |s| && forall k | a <= k < b :: !IsSpace(s[k])
    ensures NoSpace(s[a..b])
  {
    forall k | 0 <= k < b - a ensures !IsSpace(s[a..b][k]) {
      assert s[a..b][k] == s[a + k];
    }
  }

  // ---------------------------------------------------------------------------
  // The parameters of a command

  /** The priority of a new task: "high" wins over "low", and MEDIUM is the default. */
  function PriorityWord(s: string): (p: string)
    ensures p == "HIGH" <==> Contains(ToLower(s), "high")
    ensures p == "LOW" <==> !Contains(ToLower(s), "high") && Contains(ToLower(s), "low")
    ensures p == "MEDIUM" <==> !Contains(ToLower(s), "high") && !Contains(ToLower(s), "low")
  {
    if Contains(ToLower(s), "high") then "HIGH"
    else if Contains(ToLower(s), "low") then "LOW"
    else "MEDIUM"
  }

  /** Adds `key` to `f` when the slot was found. */
  function With(f: Fields, key: string, v: Option<string>): (g: Fields)
    ensures v.Some? ==> g == f[key := Str(v.value)]
    ensures v.None? ==> g == f
  {
    if v.Some? then f[key := Str(v.value)] else f
  }

  function TaskFields(text: string): Fields
  {
    With(With(map[], "title", LazySlot(text, TaskTitleRule)), "dueDate", DueDate(text))["priority" := Str(PriorityWord(text))]
  }

  function EventFields(text: string): Fields
  {
    With(With(With(map[], "title", LazySlot(text, EventTitleRule)), "dateTime", DateTime(text)), "location", Location(text))
  }

  function EmailFields(text: string): Fields
  {
    With(With(map[], "recipient", Recipient(text)), "subject", LazySlot(text, SubjectRule))
  }

  /** The parameters `extractParameters` returns for the original text and the detected intent. */
  function Slots(text: string, intent: Option<string>): Fields
  {
    if intent == Some("create_task") then TaskFields(text)
    else if intent == Some("create_event") then EventFields(text)
    else if intent == Some("draft_email") then EmailFields(text)
    else if intent == Some("web_search") then With(map[], "query", Query(text))
    else if intent == Some("scrape_url") then With(map[], "url", Url(text))
    else map[]
  }

  /**
   * `extractParameters`: fills the record slot by slot, in the order of the source. Nothing is
   * extracted without an intent or for an intent that has no extraction case.
   */
  method ExtractParameters(text: string, intent: Option<string>) returns (parameters: Fields)
    ensures parameters == Slots(text, intent)
  {
    parameters := map[];
    if intent.None? {
      return;
    }
    if intent == Some("create_task") {
      parameters := With(parameters, "title", LazySlot(text, TaskTitleRule));
      parameters := With(parameters, "dueDate", DueDate(text));
      parameters := parameters["priority" := Str(PriorityWord(text))];
    } else if intent == Some("create_event") {
      parameters := With(parameters, "title", LazySlot(text, EventTitleRule));
      parameters := With(parameters, "dateTime", DateTime(text));
      parameters := With(parameters, "location", Location(text));
    } else if intent == Some("draft_email") {
      parameters := With(parameters, "recipient", Recipient(text));
      parameters := With(parameters, "subject", LazySlot(text, SubjectRule));
    } else if intent == Some("web_search") {
      parameters := With(parameters, "query", Query(text));
    } else if intent == Some("scrape_url") {
      parameters := With(parameters, "url", Url(text));
    }
  }

  /** Without an intent, and for every intent without an extraction case, the record is empty. */
  lemma NoExtractionCase(text: string, intent: Option<string>)
    requires intent.None? || intent.value !in {"create_task", "create_event", "draft_email", "web_search", "scrape_url"}
    ensures Slots(text, intent) == map[]
  {
  }

  /**
   * A new task always gets a priority, HIGH when the text mentions "high" (even if it also
   * mentions "low"); its other keys are the title and due date, each present iff found.
   */
  lemma TaskSlots(text: string)
    ensures var f := Slots(text, Some("create_task"));
            && "priority" in f && f["priority"] == Str(PriorityWord(text))
            && (Contains(ToLower(text), "high") ==> f["priority"] == Str("HIGH"))
            && f.Keys <= {"title", "dueDate", "priority"}
            && ("title" in f <==> LazySlot(text, TaskTitleRule).Some?)
            && ("title" in f ==> f["title"] == Str(LazySlot(text, TaskTitleRule).value))
            && ("dueDate" in f <==> DueDate(text).Some?)
            && ("dueDate" in f ==> f["dueDate"] == Str(DueDate(text).value))
  {
  }

  /** A scraped command's record holds the url slot and nothing else, present iff a url occurs. */
  lemma ScrapeSlots(text: string)
    ensures var f := Slots(text, Some("scrape_url"));
            f.Keys <= {"url"} && ("url" in f <==> Url(text).Some?)
            && ("url" in f ==> f["url"] == Str(Url(text).value) && NoSpace(Url(text).value))
  {
    if Url(text).Some? {
      UrlShape(text);
    }
  }
}
