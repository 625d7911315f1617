// LIKE patterns with ESCAPE '\', and the escaping of a search keyword into one.
module LikePattern {

  // LIKE compares characters up to `fold`: the identity for the case-sensitive reading of section
  // 8.5 of ISO/IEC 9075-2, AsciiLower for SQLite's built-in LIKE.
  function AsciiLower(c: char): char {
    if 'A' <= c <= 'Z' then (c as int + 32) as char else c
  }

  // The same character, or the two cases of an ASCII letter.
  predicate SameLetter(c: char, d: char) {
    || c == d
    || ('A' <= c <= 'Z' && d as int == c as int + 32)
    || ('A' <= d <= 'Z' && c as int == d as int + 32)
  }

  lemma FoldsAlike(c: char, d: char)
    ensures AsciiLower(c) == AsciiLower(d) <==> SameLetter(c, d)
  {
  }

  predicate Like(pattern: string, text: string, fold: char -> char)
    decreases |pattern|, |text|
  {
    if pattern == [] then text == []
    else if pattern[0] == '%' then
      Like(pattern[1..], text, fold) || (text != [] && Like(pattern, text[1..], fold))
    else if pattern[0] == '_' then
      text != [] && Like(pattern[1..], text[1..], fold)
    else if pattern[0] == '\\' then
      |pattern| > 1 && text != [] && fold(pattern[1]) == fold(text[0]) && Like(pattern[2..], text[1..], fold)
    else
      text != [] && fold(pattern[0]) == fold(text[0]) && Like(pattern[1..], text[1..], fold)
  }

  // str::replace for a one-character pattern.
  function Replace(s: string, c: char, to: string): string {
    if s == [] then []
    else (if s[0] == c then to else [s[0]]) + Replace(s[1..], c, to)
  }

  // The three replacements, in source order.
  function EscapeKeyword(kw: string): string {
    Replace(Replace(Replace(kw, '\\', "\\\\"), '%', "\\%"), '_', "\\_")
  }

  function PatternFor(kw: string): string {
    "%" + EscapeKeyword(kw) + "%"
  }

  predicate Special(c: char) {
    c == '\\' || c == '%' || c == '_'
  }

  // One pass: a backslash before each special character.
  function Escaped(kw: string): string {
    if kw == [] then []
    else (if Special(kw[0]) then ['\\', kw[0]] else [kw[0]]) + Escaped(kw[1..])
  }

  lemma {:induction false} ReplaceConcat(s: string, t: string, c: char, to: string)
    ensures Replace(s + t, c, to) == Replace(s, c, to) + Replace(t, c, to)
  {
    if s == [] {
      assert s + t == t;
    } else {
      assert (s + t)[1..] == s[1..] + t;
      ReplaceConcat(s[1..], t, c, to);
    }
  }

  lemma ReplaceOne(x: char, c: char, to: string)
    ensures Replace([x], c, to) == if x == c then to else [x]
  {
    assert [x][1..] == [];
  }

  // Because backslashes are doubled first, the three passes do not disturb one another.
  lemma {:induction false} EscapeIsOnePass(kw: string)
    ensures EscapeKeyword(kw) == Escaped(kw)
  {
    if kw != [] {
      EscapeIsOnePass(kw[1..]);
      assert kw == [kw[0]] + kw[1..];
      var x := kw[0];
      var a, b := Replace([x], '\\', "\\\\"), Replace(kw[1..], '\\', "\\\\");
      ReplaceConcat([x], kw[1..], '\\', "\\\\");
      ReplaceConcat(a, b, '%', "\\%");
      var a2, b2 := Replace(a, '%', "\\%"), Replace(b, '%', "\\%");
      ReplaceConcat(a2, b2, '_', "\\_");
      EscapeOne(x);
    }
  }

  lemma EscapeOne(x: char)
    ensures Replace(Replace(Replace([x], '\\', "\\\\"), '%', "\\%"), '_', "\\_")
         == if Special(x) then ['\\', x] else [x]
  {
    ReplaceOne(x, '\\', "\\\\");
    if x == '\\' {
      ReplacePair('\\', '\\', '%', "\\%");
      ReplacePair('\\', '\\', '_', "\\_");
    } else {
      ReplaceOne(x, '%', "\\%");
      if x == '%' {
        ReplacePair('\\', '%', '_', "\\_");
      } else {
        ReplaceOne(x, '_', "\\_");
      }
    }
  }

  lemma ReplacePair(x: char, y: char, c: char, to: string)
    requires x != c && y != c
    ensures Replace([x, y], c, to) == [x, y]
  {
    assert [x, y] == [x] + [y];
    ReplaceConcat([x], [y], c, to);
    ReplaceOne(x, c, to);
    ReplaceOne(y, c, to);
  }

  // `kw` occurs in `text` at position `i`, up to `fold`.
  predicate OccursAt(kw: string, text: string, i: nat, fold: char -> char) {
    && i + |kw| <= |text|
    && forall j :: 0 <= j < |kw| ==> fold(kw[j]) == fold(text[i + j])
  }

  predicate Contains(text: string, kw: string, fold: char -> char) {
    exists i :: 0 <= i <= |text| && OccursAt(kw, text, i, fold)
  }

  lemma OccursAtSplits(kw: string, text: string, fold: char -> char)
    requires kw != []
    ensures OccursAt(kw, text, 0, fold)
        <==> text != [] && fold(kw[0]) == fold(text[0]) && OccursAt(kw[1..], text[1..], 0, fold)
  {
    if text != [] && OccursAt(kw[1..], text[1..], 0, fold) && fold(kw[0]) == fold(text[0]) {
      forall j | 0 <= j < |kw| ensures fold(kw[j]) == fold(text[0 + j]) {
        if j > 0 { assert fold(kw[1..][j - 1]) == fold(text[1..][0 + (j - 1)]); }
      }
    }
    if OccursAt(kw, text, 0, fold) {
      assert fold(kw[0]) == fold(text[0 + 0]);
      forall j | 0 <= j < |kw[1..]| ensures fold(kw[1..][j]) == fold(text[1..][0 + j]) {
        assert fold(kw[j + 1]) == fold(text[0 + (j + 1)]);
      }
    }
  }

  lemma EscapedHead(kw: string, tail: string)
    requires kw != []
    ensures var p, rest := Escaped(kw) + tail, Escaped(kw[1..]) + tail;
            if Special(kw[0]) then |p| > 1 && p[0] == '\\' && p[1] == kw[0] && p[2..] == rest
            else p[0] == kw[0] && p[1..] == rest
  {
    var head := if Special(kw[0]) then ['\\', kw[0]] else [kw[0]];
    assert Escaped(kw) == head + Escaped(kw[1..]);
    hide Escaped, Special;
    assert head + Escaped(kw[1..]) + tail == head + (Escaped(kw[1..]) + tail);
  }

  // An escaped keyword followed by `%` matches exactly the texts the keyword is a prefix of.
  lemma {:induction false} EscapedPrefix(kw: string, text: string, fold: char -> char)
    ensures Like(Escaped(kw) + "%", text, fold) <==> OccursAt(kw, text, 0, fold)
  {
    if kw == [] {
      assert Escaped(kw) + "%" == "%";
      PercentMatchesAll(text, fold);
    } else {
      hide Escaped, OccursAt;
      EscapedHead(kw, "%");
      OccursAtSplits(kw, text, fold);
      if text != [] {
        EscapedPrefix(kw[1..], text[1..], fold);
      }
    }
  }

  // On its own it matches exactly the texts that spell it.
  lemma {:induction false} EscapedExact(kw: string, text: string, fold: char -> char)
    ensures Like(Escaped(kw), text, fold) <==> |text| == |kw| && OccursAt(kw, text, 0, fold)
  {
    assert Escaped(kw) + [] == Escaped(kw);
    if kw != [] {
      hide Escaped, OccursAt;
      assert Escaped(kw[1..]) + [] == Escaped(kw[1..]);
      EscapedHead(kw, []);
      OccursAtSplits(kw, text, fold);
      if text != [] {
        EscapedExact(kw[1..], text[1..], fold);
      }
    }
  }

  lemma {:induction false} PercentMatchesAll(text: string, fold: char -> char)
    ensures Like("%", text, fold)
  {
    assert "%"[1..] == [];
    if text != [] {
      PercentMatchesAll(text[1..], fold);
    }
  }

  // The pattern built for a keyword matches exactly the texts that contain the keyword, whatever
  // mix of pattern characters it has.
  lemma {:induction false} PatternMatchesSubstring(kw: string, text: string, fold: char -> char)
    ensures Like(PatternFor(kw), text, fold) <==> Contains(text, kw, fold)
  {
    EscapeIsOnePass(kw);
    var tail := Escaped(kw) + "%";
    assert PatternFor(kw) == "%" + tail;
    assert PatternFor(kw)[0] == '%' && PatternFor(kw)[1..] == tail;
    EscapedPrefix(kw, text, fold);
    if OccursAt(kw, text, 0, fold) {
      assert Contains(text, kw, fold);
    }
    if text != [] {
      PatternMatchesSubstring(kw, text[1..], fold);
      if Contains(text[1..], kw, fold) {
        var i :| 0 <= i <= |text[1..]| && OccursAt(kw, text[1..], i, fold);
        forall j | 0 <= j < |kw| ensures fold(kw[j]) == fold(text[i + 1 + j]) {
          assert fold(kw[j]) == fold(text[1..][i + j]);
        }
        assert OccursAt(kw, text, i + 1, fold);
      }
      if Contains(text, kw, fold) && !OccursAt(kw, text, 0, fold) {
        var i :| 0 <= i <= |text| && OccursAt(kw, text, i, fold);
        forall j | 0 <= j < |kw| ensures fold(kw[j]) == fold(text[1..][i - 1 + j]) {
          assert fold(kw[j]) == fold(text[i + j]);
        }
        assert OccursAt(kw, text[1..], i - 1, fold);
      }
    } else {
      assert Contains(text, kw, fold) ==> OccursAt(kw, text, 0, fold);
    }
  }

  // ----- SQLite's folding -----

  function Lowered(s: string): (r: string)
    ensures |r| == |s| && forall i :: 0 <= i < |r| ==> r[i] == AsciiLower(s[i])
  {
    if s == [] then [] else [AsciiLower(s[0])] + Lowered(s[1..])
  }

  predicate StandsAt(part: string, s: string, i: nat) {
    i + |part| <= |s| && s[i..i + |part|] == part
  }

  // Under SQLite's LIKE the pattern finds the keyword whatever the case of its ASCII letters, and
  // nothing else: exactly when the lowered keyword is a contiguous part of the lowered text.
  lemma {:induction false} MatchesIgnoringAsciiCase(kw: string, text: string)
    ensures Like(PatternFor(kw), text, AsciiLower)
        <==> exists i :: 0 <= i <= |text| && StandsAt(Lowered(kw), Lowered(text), i)
    ensures Like(PatternFor(kw), text, AsciiLower) <==> exists i :: 0 <= i <= |text| && SpelledAt(kw, text, i)
  {
    hide *;
    PatternMatchesSubstring(kw, text, AsciiLower);
    LoweredContains(kw, text);
    SpelledContains(kw, text);
  }

  // The text has at `i` the letters of the keyword, in either case.
  predicate SpelledAt(kw: string, text: string, i: nat) {
    i + |kw| <= |text| && forall j :: 0 <= j < |kw| ==> SameLetter(kw[j], text[i + j])
  }

  lemma {:induction false} SpelledContains(kw: string, text: string)
    ensures Contains(text, kw, AsciiLower) <==> exists i :: 0 <= i <= |text| && SpelledAt(kw, text, i)
  {
    hide AsciiLower, SameLetter;
    forall i | 0 <= i <= |text| ensures OccursAt(kw, text, i, AsciiLower) <==> SpelledAt(kw, text, i) {
      if i + |kw| <= |text| {
        forall j | 0 <= j < |kw|
          ensures AsciiLower(kw[j]) == AsciiLower(text[i + j]) <==> SameLetter(kw[j], text[i + j])
        {
          FoldsAlike(kw[j], text[i + j]);
        }
      }
    }
  }

  lemma {:induction false} LoweredContains(kw: string, text: string)
    ensures Contains(text, kw, AsciiLower) <==> exists i :: 0 <= i <= |text| && StandsAt(Lowered(kw), Lowered(text), i)
  {
    hide StandsAt, OccursAt, Lowered, AsciiLower;
    if Contains(text, kw, AsciiLower) {
      var i :| 0 <= i <= |text| && OccursAt(kw, text, i, AsciiLower);
      LoweredPart(kw, text, i);
    }
    if exists i :: 0 <= i <= |text| && StandsAt(Lowered(kw), Lowered(text), i) {
      var i :| 0 <= i <= |text| && StandsAt(Lowered(kw), Lowered(text), i);
      LoweredPart(kw, text, i);
    }
  }

  lemma LoweredPart(kw: string, text: string, i: nat)
    ensures StandsAt(Lowered(kw), Lowered(text), i) <==> OccursAt(kw, text, i, AsciiLower)
  {
    hide AsciiLower;
    if i + |kw| <= |text| {
      var part := Lowered(text)[i..i + |kw|];
      assert forall j :: 0 <= j < |kw| ==> part[j] == AsciiLower(text[i + j]) && Lowered(kw)[j] == AsciiLower(kw[j]);
      if part == Lowered(kw) {
        assert forall j :: 0 <= j < |kw| ==> part[j] == Lowered(kw)[j];
      }
    }
  }
}
