// Stripping system reminders from the edges of a user text.
module Reminders {
  import opened Text
  import opened Wrappers

  predicate Occurs(s: string, p: string, i: nat) {
    i + |p| <= |s| && s[i..i + |p|] == p
  }

  predicate ContainsText(s: string, p: string) {
    exists i :: 0 <= i <= |s| && Occurs(s, p, i)
  }

  predicate StartsWith(s: string, p: string) {
    Occurs(s, p, 0)
  }

  predicate EndsWith(s: string, p: string) {
    |p| <= |s| && Occurs(s, p, |s| - |p|)
  }

  // str::find: the first occurrence at or after `from`.
  function Find(s: string, p: string, from: nat): (r: Option<nat>)
    ensures r.Some? ==> from <= r.value && Occurs(s, p, r.value)
    ensures r.Some? ==> forall i :: from <= i < r.value ==> !Occurs(s, p, i)
    ensures r.None? ==> forall i :: from <= i ==> !Occurs(s, p, i)
    decreases |s| - from
  {
    if from + |p| > |s| then None
    else if Occurs(s, p, from) then Some(from)
    else Find(s, p, from + 1)
  }

  // str::rfind: the last occurrence before `to`.
  function FindLast(s: string, p: string, to: nat): (r: Option<nat>)
    ensures r.Some? ==> r.value < to && Occurs(s, p, r.value)
    ensures r.Some? ==> forall i :: r.value < i < to ==> !Occurs(s, p, i)
    ensures r.None? ==> forall i :: 0 <= i < to ==> !Occurs(s, p, i)
  {
    if to == 0 then None
    else if Occurs(s, p, to - 1) then Some(to - 1)
    else FindLast(s, p, to - 1)
  }

  datatype Step = Stripped(rest: string) | Clean(text: string) | Malformed

  // The opening and the closing tag.
  datatype Tags = Tags(open: string, close: string)

  function ReminderTags(): Tags { Tags("<system-reminder>", "</system-reminder>") }

  // What is left of `t`, which starts with the opening tag, after its first reminder.
  function DropFront(t: string, g: Tags): Step
    requires StartsWith(t, g.open)
  {
    var rest := t[|g.open|..];
    match Find(rest, g.close, 0)
    case None => Malformed
    case Some(end) =>
      if ContainsText(rest[..end], g.open) then Malformed else Stripped(rest[end + |g.close|..])
  }

  // What is left of `t`, which ends with the closing tag, before its last reminder.
  function DropBack(t: string, g: Tags): Step
    requires EndsWith(t, g.close)
  {
    var rest := t[..|t| - |g.close|];
    match FindLast(rest, g.open, |rest| + 1)
    case None => Malformed
    case Some(start) =>
      if ContainsText(rest[start + |g.open|..], g.close) then Malformed else Stripped(rest[..start])
  }

  // One round of the loop: trim, then take one reminder off the front, or else off the back.
  function StripOne(text: string, g: Tags): Step {
    var t := Trim(text);
    if StartsWith(t, g.open) then DropFront(t, g)
    else if EndsWith(t, g.close) then DropBack(t, g)
    else Clean(t)
  }

  // At most `rounds` rounds.
  function Strip(text: string, g: Tags, rounds: nat): Option<string>
    decreases rounds
  {
    if rounds == 0 then None
    else
      match StripOne(text, g)
      case Malformed => None
      case Clean(t) => Some(t)
      case Stripped(rest) => Strip(rest, g, rounds - 1)
  }

  method StripEdgeReminders(text: string) returns (r: Option<string>)
    ensures r == Strip(text, ReminderTags(), 8)
  {
    hide ReminderTags, StripOne, IsSlice, Trim;
    var g := ReminderTags();
    var t := text;
    for round := 0 to 8
      invariant Strip(text, g, 8) == Strip(t, g, 8 - round)
    {
      match StripOne(t, g) {
        case Malformed => return None;
        case Clean(c) => return Some(c);
        case Stripped(rest) => t := rest;
      }
    }
    r := None;
  }

  // ----- what a result is -----

  lemma Slices(s: string, a: nat, b: nat, c: nat, d: nat)
    requires a <= b <= |s| && c <= d <= b - a
    ensures s[a..b][c..d] == s[a + c..a + d]
  {
    var x, y := s[a..b][c..d], s[a + c..a + d];
    assert |x| == |y|;
    forall i | 0 <= i < |x| ensures x[i] == y[i] {
    }
  }

  lemma TrimIsSlice(s: string)
    ensures IsSlice(Trim(s), s)
  {
    hide Trim;
    var before, after := TrimCuts(s);
    var a, b := |before|, |before| + |Trim(s)|;
    assert s[a..b] == Trim(s);
  }

  predicate IsSlice(r: string, s: string) {
    exists a, b :: 0 <= a <= b <= |s| && r == s[a..b]
  }

  lemma SliceOfSlice(r: string, t: string, s: string)
    requires IsSlice(r, t) && IsSlice(t, s)
    ensures IsSlice(r, s)
  {
    var a, b :| 0 <= a <= b <= |s| && t == s[a..b];
    var c, d :| 0 <= c <= d <= |t| && r == t[c..d];
    Slices(s, a, b, c, d);
    assert r == s[a + c..a + d];
  }

  lemma DropIsSlice(t: string, g: Tags)
    ensures StartsWith(t, g.open) && DropFront(t, g).Stripped? ==> IsSlice(DropFront(t, g).rest, t)
    ensures EndsWith(t, g.close) && DropBack(t, g).Stripped? ==> IsSlice(DropBack(t, g).rest, t)
  {
    if StartsWith(t, g.open) && DropFront(t, g).Stripped? {
      var rest := t[|g.open|..];
      var end := Find(rest, g.close, 0).value;
      assert DropFront(t, g).rest == t[|g.open| + end + |g.close|..|t|];
    }
    if EndsWith(t, g.close) && DropBack(t, g).Stripped? {
      var rest := t[..|t| - |g.close|];
      var start := FindLast(rest, g.open, |rest| + 1).value;
      assert DropBack(t, g).rest == t[0..start];
    }
  }

  lemma {:induction false} StripOneIsSlice(text: string, g: Tags)
    ensures StripOne(text, g).Stripped? ==> IsSlice(StripOne(text, g).rest, text)
    ensures StripOne(text, g).Clean? ==> IsSlice(StripOne(text, g).text, text)
  {
    hide IsSlice, Trim;
    TrimIsSlice(text);
    DropIsSlice(Trim(text), g);
    if StripOne(text, g).Stripped? {
      SliceOfSlice(StripOne(text, g).rest, Trim(text), text);
    }
  }

  // What strip_edge_reminders leaves alone: a trimmed text with no tag at its edges.
  predicate EdgesClean(t: string, g: Tags) {
    Trimmed(t) && !StartsWith(t, g.open) && !EndsWith(t, g.close)
  }

  lemma {:induction false} CleanStep(text: string, g: Tags)
    requires StripOne(text, g).Clean?
    ensures EdgesClean(StripOne(text, g).text, g)
  {
    hide Trim, Trimmed;
    var before, after := TrimCuts(text);
  }

  // A result has clean edges and is a contiguous part of the input.
  lemma {:induction false} ResultIsClean(text: string, g: Tags, rounds: nat)
    requires Strip(text, g, rounds).Some?
    ensures EdgesClean(Strip(text, g, rounds).value, g)
    ensures IsSlice(Strip(text, g, rounds).value, text)
    decreases rounds
  {
    hide IsSlice, StripOne, EdgesClean;
    StripOneIsSlice(text, g);
    match StripOne(text, g) {
      case Clean(t) =>
        CleanStep(text, g);
      case Stripped(rest) =>
        ResultIsClean(rest, g, rounds - 1);
        SliceOfSlice(Strip(rest, g, rounds - 1).value, rest, text);
    }
  }

  lemma TrimmedIsFixed(t: string)
    requires Trimmed(t)
    ensures Trim(t) == t
  {
    TrimUnique([], t, []);
    assert [] + t + [] == t;
  }

  lemma CleanIsFixed(t: string, g: Tags, rounds: nat)
    requires EdgesClean(t, g) && rounds > 0
    ensures Strip(t, g, rounds) == Some(t)
  {
    hide Trim, Trimmed, StartsWith, EndsWith, DropFront, DropBack;
    TrimmedIsFixed(t);
  }

  // So stripping a result again changes nothing.
  lemma {:induction false} StripIdempotent(text: string, g: Tags, rounds: nat)
    requires Strip(text, g, rounds).Some?
    ensures Strip(Strip(text, g, rounds).value, g, rounds) == Strip(text, g, rounds)
  {
    ResultIsClean(text, g, rounds);
    CleanIsFixed(Strip(text, g, rounds).value, g, rounds);
  }

  // ----- undoing a wrapper -----

  // A reminder preceded by whitespace.
  datatype Piece = Piece(space: string, body: string)

  predicate WellFormed(p: Piece, g: Tags) {
    Blank(p.space) && !ContainsText(p.body, g.open) && !ContainsText(p.body, g.close)
  }

  function Reminder(body: string, g: Tags): string {
    g.open + body + g.close
  }

  function RenderAll(ps: seq<Piece>, g: Tags): string {
    if ps == [] then "" else ps[0].space + Reminder(ps[0].body, g) + RenderAll(ps[1..], g)
  }

  // Each tag has `<` at its front only, and no whitespace.
  predicate TagShape(tag: string) {
    && tag != [] && tag[0] == '<'
    && (forall i :: 0 < i < |tag| ==> tag[i] != '<')
    && (forall i :: 0 <= i < |tag| ==> !IsWhitespace(tag[i]))
  }

  lemma {:induction false} ReminderTagShape()
    ensures TagShape(ReminderTags().open) && TagShape(ReminderTags().close)
  {
    TagsHaveShape(ReminderTags());
  }

  lemma {:induction false} TagsHaveShape(g: Tags)
    requires g == ReminderTags()
    ensures TagShape(g.open) && TagShape(g.close)
  {
    assert |g.open| == 17 && |g.close| == 18;
    assert g.open[0] == '<' && g.close[0] == '<';
    assert forall i :: 0 < i < |g.open| ==> g.open[i] != '<';
    assert forall i :: 0 < i < |g.close| ==> g.close[i] != '<';
  }

  // The loop trims first, so outer whitespace never matters.
  lemma SameTrim(a: string, b: string, g: Tags, rounds: nat)
    requires Trim(a) == Trim(b)
    ensures Strip(a, g, rounds) == Strip(b, g, rounds)
  {
    hide Trim;
    assert StripOne(a, g) == StripOne(b, g);
  }

  lemma {:induction false} TrimEndConcat(a: string, b: string)
    requires a != [] && !IsWhitespace(a[|a| - 1])
    ensures TrimEnd(a + b) == a + TrimEnd(b)
    decreases |b|
  {
    if b == [] {
      assert a + b == a;
    } else if IsWhitespace(b[|b| - 1]) {
      assert (a + b)[..|a + b| - 1] == a + b[..|b| - 1];
      TrimEndConcat(a, b[..|b| - 1]);
    }
  }

  lemma {:induction false} TrimAfterTrimEnd(b: string)
    ensures Trim(TrimEnd(b)) == Trim(b)
  {
    hide Trim;
    var before, after := TrimCuts(b);
    var t := Trim(b);
    if t == [] {
      BlankSlice(b, |TrimEnd(b)|);
      TrimUnique(TrimEnd(b), [], []);
      assert TrimEnd(b) + [] + [] == TrimEnd(b);
    } else {
      assert (before + t)[|before + t| - 1] == t[|t| - 1];
      TrimEndSkips(before + t, after);
      TrimUnique(before, t, []);
      assert before + t + [] == before + t;
    }
  }

  lemma BlankSlice(b: string, n: nat)
    requires Blank(b) && n <= |b|
    ensures Blank(b[..n])
  {
  }

  lemma FindFirst(s: string, p: string, k: nat, from: nat)
    requires Occurs(s, p, k) && from <= k
    requires forall i :: from <= i < k ==> !Occurs(s, p, i)
    ensures Find(s, p, from) == Some(k)
  {
    var r := Find(s, p, from);
    if r.None? {
      assert false;
    }
  }

  lemma FindLastAt(s: string, p: string, k: nat, to: nat)
    requires Occurs(s, p, k) && k < to
    requires forall i :: k < i < to ==> !Occurs(s, p, i)
    ensures FindLast(s, p, to) == Some(k)
  {
    var r := FindLast(s, p, to);
    if r.None? {
      assert false;
    }
  }

  // A tag cannot begin inside another copy of itself.
  lemma NoOverlap(s: string, tag: string, i: nat, k: nat)
    requires TagShape(tag) && Occurs(s, tag, i) && Occurs(s, tag, k)
    ensures !(i < k < i + |tag|)
  {
    assert s[k] == s[k..k + |tag|][0] == '<';
    if i <= k < i + |tag| {
      assert s[k] == s[i..i + |tag|][k - i];
    }
  }

  lemma OccursBefore(body: string, more: string, tag: string, i: nat)
    requires Occurs(body + more, tag, i) && i + |tag| <= |body|
    ensures ContainsText(body, tag)
  {
    assert body[i..i + |tag|] == (body + more)[i..i + |tag|];
    assert Occurs(body, tag, i);
  }

  lemma OccursAfter(before: string, body: string, tag: string, i: nat)
    requires Occurs(before + body, tag, i) && |before| <= i
    ensures ContainsText(body, tag)
  {
    var k := i - |before|;
    assert body[k..k + |tag|] == (before + body)[i..i + |tag|];
    assert Occurs(body, tag, k);
  }

  // In body + tag + more, the first tag is the one after the body.
  lemma FirstTag(body: string, tag: string, more: string)
    requires TagShape(tag) && !ContainsText(body, tag)
    ensures Find(body + tag + more, tag, 0) == Some(|body|)
  {
    var s := body + tag + more;
    assert s == body + (tag + more);
    assert Occurs(s, tag, |body|);
    forall i | 0 <= i < |body| ensures !Occurs(s, tag, i) {
      if Occurs(s, tag, i) {
        NoOverlap(s, tag, i, |body|);
        OccursBefore(body, tag + more, tag, i);
      }
    }
    FindFirst(s, tag, |body|, 0);
  }

  // In before + tag + body, the last tag is the one before the body.
  lemma LastTag(before: string, tag: string, body: string)
    requires TagShape(tag) && !ContainsText(body, tag)
    ensures FindLast(before + tag + body, tag, |before + tag + body| + 1) == Some(|before|)
  {
    var s := before + tag + body;
    assert Occurs(s, tag, |before|);
    forall i | |before| < i < |s| + 1 ensures !Occurs(s, tag, i) {
      if Occurs(s, tag, i) {
        NoOverlap(s, tag, |before|, i);
        OccursAfter(before + tag, body, tag, i);
      }
    }
    FindLastAt(s, tag, |before|, |s| + 1);
  }

  predicate GoodTags(g: Tags) {
    TagShape(g.open) && TagShape(g.close)
  }

  lemma DropFrontReminder(body: string, more: string, g: Tags)
    requires GoodTags(g) && !ContainsText(body, g.open) && !ContainsText(body, g.close)
    ensures StartsWith(Reminder(body, g) + more, g.open)
    ensures DropFront(Reminder(body, g) + more, g) == Stripped(more)
  {
    hide TagShape, ContainsText, Find;
    var t := Reminder(body, g) + more;
    assert t[..|g.open|] == g.open;
    assert t[|g.open|..] == body + g.close + more;
    FirstTag(body, g.close, more);
    assert (body + g.close + more)[..|body|] == body;
    assert (body + g.close + more)[|body| + |g.close|..] == more;
  }

  lemma DropBackReminder(before: string, body: string, g: Tags)
    requires GoodTags(g) && !ContainsText(body, g.open) && !ContainsText(body, g.close)
    ensures EndsWith(before + Reminder(body, g), g.close)
    ensures DropBack(before + Reminder(body, g), g) == Stripped(before)
  {
    hide TagShape, ContainsText, FindLast;
    var t := before + Reminder(body, g);
    assert t[|t| - |g.close|..] == g.close;
    assert t[..|t| - |g.close|] == before + g.open + body;
    LastTag(before, g.open, body);
    var rest := before + g.open + body;
    assert rest[|before| + |g.open|..] == body;
    assert rest[..|before|] == before;
  }

  lemma TrimFront(space: string, r: string, more: string)
    requires Blank(space) && r != [] && Trimmed(r)
    ensures Trim(space + r + more) == r + TrimEnd(more)
  {
    Associate(space, r, more);
    assert (r + more)[0] == r[0];
    TrimStartSkips(space, r + more);
    TrimEndConcat(r, more);
  }

  // One round takes a leading reminder off.
  lemma {:induction false} PeelFront(p: Piece, more: string, g: Tags, rounds: nat)
    requires GoodTags(g) && WellFormed(p, g) && rounds > 0
    ensures Strip(p.space + Reminder(p.body, g) + more, g, rounds) == Strip(more, g, rounds - 1)
  {
    hide Trim, TagShape, ContainsText, Reminder, StripOne;
    var text := p.space + Reminder(p.body, g) + more;
    ReminderEdges(p.body, g);
    TrimFront(p.space, Reminder(p.body, g), more);
    PeelFrontStep(p, text, TrimEnd(more), g);
    TrimAfterTrimEnd(more);
    SameTrim(TrimEnd(more), more, g, rounds - 1);
  }

  lemma {:induction false} PeelFrontStep(p: Piece, text: string, more: string, g: Tags)
    requires GoodTags(g) && WellFormed(p, g)
    requires Trim(text) == Reminder(p.body, g) + more
    ensures StripOne(text, g) == Stripped(more)
  {
    hide Trim, TagShape, ContainsText, DropFront;
    DropFrontReminder(p.body, more, g);
  }

  lemma ReminderEdges(body: string, g: Tags)
    requires GoodTags(g)
    ensures Reminder(body, g) != [] && Trimmed(Reminder(body, g))
    ensures !IsWhitespace(Reminder(body, g)[|Reminder(body, g)| - 1])
  {
  }

  // One round takes a trailing reminder off, unless the text also starts with an opening tag.
  lemma PeelBack(front: string, before: string, body: string, after: string, g: Tags, rounds: nat)
    requires GoodTags(g) && !ContainsText(body, g.open) && !ContainsText(body, g.close)
    requires Blank(front) && Blank(after) && before != [] && !IsWhitespace(before[0]) && rounds > 0
    requires !StartsWith(before + Reminder(body, g), g.open)
    ensures Strip(front + (before + Reminder(body, g)) + after, g, rounds) == Strip(before, g, rounds - 1)
  {
    var t := before + Reminder(body, g);
    assert Trim(front + t + after) == t by {
      ReminderEdges(body, g);
      assert t[0] == before[0] && t[|t| - 1] == Reminder(body, g)[|Reminder(body, g)| - 1];
      TrimUnique(front, t, after);
    }
    hide Trim, TagShape, ContainsText, DropBack, StartsWith, Reminder;
    DropBackReminder(before, body, g);
  }

  // ----- when a tag at an edge is taken off, and when the text is refused -----

  // The text begins with a reminder up to the first closing tag, which holds no opening tag.
  ghost predicate CutsFront(t: string, body: string, r: string, g: Tags) {
    && t == g.open + (body + g.close + r)
    && !ContainsText(body, g.open)
    && forall i :: 0 <= i < |body| ==> !Occurs(body + g.close + r, g.close, i)
  }

  // A text that begins with an opening tag loses such a reminder, or is refused when there is none.
  lemma FrontIff(text: string, r: string, g: Tags)
    requires StartsWith(Trim(text), g.open)
    ensures StripOne(text, g) == Stripped(r) <==> exists body :: CutsFront(Trim(text), body, r, g)
    ensures !StripOne(text, g).Clean?
  {
    hide Trim, DropFront, CutsFront;
    if StripOne(text, g) == Stripped(r) {
      var body := FrontCut(Trim(text), r, g);
    }
    if body :| CutsFront(Trim(text), body, r, g) {
      CutFront(Trim(text), body, r, g);
    }
    FrontNotClean(Trim(text), g);
  }

  lemma FrontNotClean(t: string, g: Tags)
    requires StartsWith(t, g.open)
    ensures !DropFront(t, g).Clean?
  {
  }

  lemma {:induction false} FrontCut(t: string, r: string, g: Tags) returns (body: string)
    requires StartsWith(t, g.open) && DropFront(t, g) == Stripped(r)
    ensures CutsFront(t, body, r, g)
  {
    hide ContainsText;
    var rest := t[|g.open|..];
    var end := Find(rest, g.close, 0).value;
    body := rest[..end];
    assert rest[end..end + |g.close|] == g.close;
    Parts(rest, end, |g.close|);
    assert t == g.open + rest;
  }

  lemma Parts(s: string, i: nat, n: nat)
    requires i + n <= |s|
    ensures s == s[..i] + s[i..i + n] + s[i + n..]
  {
  }

  lemma {:induction false} CutFront(t: string, body: string, r: string, g: Tags)
    requires StartsWith(t, g.open) && CutsFront(t, body, r, g)
    ensures DropFront(t, g) == Stripped(r)
  {
    hide ContainsText;
    var rest := body + g.close + r;
    assert t[|g.open|..] == rest;
    StandsIn(body, g.close, r);
    assert Find(rest, g.close, 0) == Some(|body|);
  }

  lemma StandsIn(a: string, b: string, c: string)
    ensures Occurs(a + b + c, b, |a|) && (a + b + c)[..|a|] == a && (a + b + c)[|a| + |b|..] == c
  {
  }

  // The text ends with a reminder from the last opening tag on, which holds no closing tag.
  ghost predicate CutsBack(t: string, body: string, r: string, g: Tags) {
    && t == r + g.open + body + g.close
    && !ContainsText(body, g.close)
    && forall i :: |r| < i ==> !Occurs(r + g.open + body, g.open, i)
  }

  lemma {:induction false} BackIff(text: string, r: string, g: Tags)
    requires !StartsWith(Trim(text), g.open) && EndsWith(Trim(text), g.close)
    ensures StripOne(text, g) == Stripped(r) <==> exists body :: CutsBack(Trim(text), body, r, g)
    ensures !StripOne(text, g).Clean?
  {
    hide Trim, ContainsText;
    var t := Trim(text);
    var rest := t[..|t| - |g.close|];
    assert t == rest + g.close;
    var start := FindLast(rest, g.open, |rest| + 1);
    if StripOne(text, g) == Stripped(r) {
      var body := rest[start.value + |g.open|..];
      assert rest == r + g.open + body;
      assert CutsBack(t, body, r, g);
    }
    if body :| CutsBack(t, body, r, g) {
      assert rest == r + g.open + body;
      assert Occurs(rest, g.open, |r|);
      assert start == Some(|r|);
      assert rest[..|r|] == r && rest[|r| + |g.open|..] == body;
    }
  }

  // A text with clean edges cannot complete an opening tag with whitespace or a reminder.
  lemma NoNewOpening(t: string, more: string, g: Tags)
    requires GoodTags(g) && t != [] && !StartsWith(t, g.open)
    requires more == [] || IsWhitespace(more[0]) || more[0] == '<'
    ensures !StartsWith(t + more, g.open)
  {
    var x, n := t + more, |g.open|;
    if n <= |t| {
      assert x[..n] == t[..n];
    } else if n <= |x| {
      assert x[..n][|t|] == x[|t|] == more[0];
    }
  }

  predicate AllWellFormed(ps: seq<Piece>, g: Tags) {
    forall i :: 0 <= i < |ps| ==> WellFormed(ps[i], g)
  }

  // Pieces after the text, seen from the end.
  lemma {:induction false} RenderLast(ps: seq<Piece>, p: Piece, g: Tags)
    ensures RenderAll(ps + [p], g) == RenderAll(ps, g) + p.space + Reminder(p.body, g)
  {
    hide Reminder;
    if ps == [] {
      assert ps + [p] == [p] && [p][1..] == [];
    } else {
      assert (ps + [p])[0] == ps[0] && (ps + [p])[1..] == ps[1..] + [p];
      RenderLast(ps[1..], p, g);
      Associate(ps[0].space + Reminder(ps[0].body, g), RenderAll(ps[1..], g) + p.space, Reminder(p.body, g));
      Associate(ps[0].space + Reminder(ps[0].body, g), RenderAll(ps[1..], g), p.space);
    }
  }

  lemma RenderHead(ps: seq<Piece>, g: Tags)
    requires AllWellFormed(ps, g) && GoodTags(g)
    ensures RenderAll(ps, g) == [] || IsWhitespace(RenderAll(ps, g)[0]) || RenderAll(ps, g)[0] == '<'
  {
    if ps != [] {
      var r := ps[0].space + Reminder(ps[0].body, g);
      assert r[0] == if ps[0].space == [] then g.open[0] else ps[0].space[0];
      assert RenderAll(ps, g)[0] == r[0];
    }
  }

  function Outcome(t: string, pieces: nat, rounds: nat): Option<string> {
    if rounds > pieces then Some(t) else None
  }

  lemma {:induction false} StripTrailing(w1: string, t: string, post: seq<Piece>, w2: string, g: Tags, rounds: nat)
    requires GoodTags(g) && EdgesClean(t, g) && t != [] && AllWellFormed(post, g) && Blank(w1) && Blank(w2)
    ensures Strip(w1 + (t + RenderAll(post, g)) + w2, g, rounds) == Outcome(t, |post|, rounds)
    decreases |post|
  {
    hide GoodTags, EdgesClean, StripOne, Blank, ContainsText, Reminder;
    if rounds == 0 {
    } else if post == [] {
      StripAlone(w1, t, w2, g, rounds);
      assert t + RenderAll(post, g) == t;
    } else {
      hide Strip, RenderAll;
      var n := |post| - 1;
      var p := post[n];
      assert WellFormed(p, g);
      assert post == post[..n] + [p];
      RenderLast(post[..n], p, g);
      TrailingStep(w1, t, post[..n], p, w2, g, rounds);
      BlankNil();
      StripTrailing([], t, post[..n], p.space, g, rounds - 1);
    }
  }

  lemma BlankNil()
    ensures Blank([])
  {
  }

  lemma StripAlone(w1: string, t: string, w2: string, g: Tags, rounds: nat)
    requires EdgesClean(t, g) && Blank(w1) && Blank(w2) && rounds > 0
    ensures Strip(w1 + t + w2, g, rounds) == Some(t)
  {
    hide Strip, Trim, Trimmed, Blank, StartsWith, EndsWith;
    TrimUnique(w1, t, w2);
    TrimmedIsFixed(t);
    SameTrim(w1 + t + w2, t, g, rounds);
    CleanIsFixed(t, g, rounds);
  }

  lemma {:induction false} TrailingStep(w1: string, t: string, ps: seq<Piece>, p: Piece, w2: string, g: Tags,
                                        rounds: nat)
    requires GoodTags(g) && EdgesClean(t, g) && t != [] && AllWellFormed(ps, g) && WellFormed(p, g)
    requires Blank(w1) && Blank(w2) && rounds > 0
    ensures
      Strip(w1 + (t + (RenderAll(ps, g) + p.space + Reminder(p.body, g))) + w2, g, rounds)
      == Strip([] + (t + RenderAll(ps, g)) + p.space, g, rounds - 1)
  {
    hide RenderAll, TagShape, Strip, Trim, StartsWith, EndsWith, ContainsText;
    var all := RenderAll(ps, g) + p.space + Reminder(p.body, g);
    var before := [] + (t + RenderAll(ps, g)) + p.space;
    assert before + Reminder(p.body, g) == t + all;
    assert before[0] == t[0];
    RenderLast(ps, p, g);
    RenderHead(ps + [p], g);
    NoNewOpening(t, all, g);
    PeelBack(w1, before, p.body, w2, g, rounds);
  }

  lemma {:induction false} StripBlank(w: string, g: Tags, rounds: nat)
    requires GoodTags(g) && Blank(w) && rounds > 0
    ensures Strip(w, g, rounds) == Some([])
  {
    hide Strip, StripOne, Trim;
    TrimBlank(w);
    TrimBlank([]);
    SameTrim(w, [], g, rounds);
    CleanIsFixed([], g, rounds);
  }

  // Leading pieces come off one round each.
  lemma {:induction false} StripLeading(pre: seq<Piece>, more: string, g: Tags, rounds: nat)
    requires GoodTags(g) && AllWellFormed(pre, g)
    ensures Strip(RenderAll(pre, g) + more, g, rounds)
         == if rounds > |pre| then Strip(more, g, rounds - |pre|) else None
  {
    hide GoodTags, WellFormed, StripOne, Reminder;
    if rounds == 0 {
    } else if pre == [] {
      assert RenderAll(pre, g) + more == more;
    } else {
      hide Strip;
      var p := pre[0];
      assert WellFormed(p, g);
      Associate(p.space + Reminder(p.body, g), RenderAll(pre[1..], g), more);
      PeelFront(p, RenderAll(pre[1..], g) + more, g, rounds);
      StripLeading(pre[1..], more, g, rounds - 1);
    }
  }

  // A reminder count of at most rounds - 1 is undone exactly; any more is refused.
  lemma UnwrapsExactly(pre: seq<Piece>, w1: string, t: string, post: seq<Piece>, w2: string, g: Tags, rounds: nat)
    requires GoodTags(g) && AllWellFormed(pre, g) && AllWellFormed(post, g) && Blank(w1) && Blank(w2)
    requires EdgesClean(t, g)
    ensures Strip(RenderAll(pre, g) + (w1 + (t + RenderAll(post, g)) + w2), g, rounds)
         == Outcome(t, |pre| + |post|, rounds)
  {
    hide TagShape, WellFormed, Strip, RenderAll, StartsWith, EndsWith, Trimmed;
    var inner := w1 + (t + RenderAll(post, g)) + w2;
    StripLeading(pre, inner, g, rounds);
    if rounds > |pre| {
      if t == [] {
        StripEmpty(w1, post, w2, g, rounds - |pre|);
        assert t + RenderAll(post, g) == RenderAll(post, g);
      } else {
        StripTrailing(w1, t, post, w2, g, rounds - |pre|);
      }
    }
  }

  lemma {:induction false} StripEmpty(w1: string, post: seq<Piece>, w2: string, g: Tags, rounds: nat)
    requires GoodTags(g) && AllWellFormed(post, g) && Blank(w1) && Blank(w2) && rounds > 0
    ensures Strip(w1 + RenderAll(post, g) + w2, g, rounds) == Outcome([], |post|, rounds)
  {
    hide TagShape, ContainsText, Strip;
    if post == [] {
      assert Blank(w1 + RenderAll(post, g) + w2);
      StripBlank(w1 + RenderAll(post, g) + w2, g, rounds);
    } else {
      var p := post[0];
      var first := Piece(w1 + p.space, p.body);
      var pieces := [first] + post[1..];
      assert RenderAll(pieces, g) == w1 + RenderAll(post, g) by {
        assert pieces[1..] == post[1..];
        Associate(w1, p.space + Reminder(p.body, g), RenderAll(post[1..], g));
        Associate(w1, p.space, Reminder(p.body, g));
      }
      assert WellFormed(first, g);
      StripLeading(pieces, w2, g, rounds);
      if rounds > |post| {
        StripBlank(w2, g, rounds - |post|);
      }
    }
  }

  // With the reminder tags and eight rounds: at most seven reminders on either edge.
  lemma {:induction false} SevenReminders(pre: seq<Piece>, w1: string, t: string, post: seq<Piece>, w2: string)
    requires var g := ReminderTags(); AllWellFormed(pre, g) && AllWellFormed(post, g) && EdgesClean(t, g)
    requires Blank(w1) && Blank(w2)
    ensures Strip(RenderAll(pre, ReminderTags()) + (w1 + (t + RenderAll(post, ReminderTags())) + w2), ReminderTags(), 8)
         == if |pre| + |post| <= 7 then Some(t) else None
    ensures ReminderTags() == Tags("<system-reminder>", "</system-reminder>")
  {
    TagsAre();
    hide *;
    ReminderTagShape();
    SevenFor(pre, w1, t, post, w2, ReminderTags());
  }

  lemma TagsAre()
    ensures ReminderTags() == Tags("<system-reminder>", "</system-reminder>")
  {
  }

  lemma {:induction false} SevenFor(pre: seq<Piece>, w1: string, t: string, post: seq<Piece>, w2: string, g: Tags)
    requires TagShape(g.open) && TagShape(g.close)
    requires AllWellFormed(pre, g) && AllWellFormed(post, g) && EdgesClean(t, g) && Blank(w1) && Blank(w2)
    ensures Strip(RenderAll(pre, g) + (w1 + (t + RenderAll(post, g)) + w2), g, 8)
         == if |pre| + |post| <= 7 then Some(t) else None
  {
    hide Strip, RenderAll, EdgesClean, TagShape, AllWellFormed;
    UnwrapsExactly(pre, w1, t, post, w2, g, 8);
  }
}
