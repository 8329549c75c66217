/** The e-mail filter: the search text is escaped into a LIKE pattern and matched without regard to case. */
module EmailSearch {
  datatype SearchMode = Prefix | Contains

  const BACKSLASH := '\\'

  /** `str.replace` of one character. */
  function Replace(s: string, c: char, r: string): string {
    if s == [] then [] else (if s[0] == c then r else [s[0]]) + Replace(s[1..], c, r)
  }

  /** Backslashes first, so that the ones added for the wildcards are not doubled again. */
  function Escape(s: string): string {
    Replace(Replace(Replace(s, BACKSLASH, "\\\\"), '%', "\\%"), '_', "\\_")
  }

  function LikePattern(search: string, mode: SearchMode): string {
    match mode
    case Prefix => Escape(search) + "%"
    case Contains => "%" + Escape(search) + "%"
  }

  /** SQL LIKE with backslash as escape character. */
  predicate Like(p: string, t: string)
    decreases |p|
  {
    if p == [] then t == []
    else if p[0] == BACKSLASH && |p| > 1 then t != [] && t[0] == p[1] && Like(p[2..], t[1..])
    else if p[0] == '%' then exists k | 0 <= k <= |t| :: Like(p[1..], t[k..])
    else if p[0] == '_' then t != [] && Like(p[1..], t[1..])
    else t != [] && t[0] == p[0] && Like(p[1..], t[1..])
  }

  function LowerChar(c: char): char {
    if 'A' <= c <= 'Z' then (c as int + 32) as char else c
  }

  function Lower(s: string): string {
    if s == [] then [] else [LowerChar(s[0])] + Lower(s[1..])
  }

  /** Capital and small letters become the same small letter; other characters stay. */
  lemma LowerFoldsCase(i: nat, c: char)
    requires i < 26
    ensures var capital, small := ('A' as int + i) as char, ('a' as int + i) as char;
      LowerChar(capital) == LowerChar(small) == small && (c < 'A' || c > 'Z' ==> LowerChar(c) == c)
  {
  }

  predicate Ilike(pattern: string, text: string) {
    Like(Lower(pattern), Lower(text))
  }

  /** What the search is meant to find. */
  predicate Found(search: string, mode: SearchMode, email: string) {
    match mode
    case Prefix => search <= email
    case Contains => exists k | 0 <= k <= |email| :: search <= email[k..]
  }

  // ---- escaping -----------------------------------------------------------

  lemma {:induction false} ReplaceConcat(a: string, b: string, c: char, r: string)
    ensures Replace(a + b, c, r) == Replace(a, c, r) + Replace(b, c, r)
  {
    if a == [] {
      assert a + b == b;
    } else {
      assert (a + b)[1..] == a[1..] + b;
      ReplaceConcat(a[1..], b, c, r);
    }
  }

  lemma EscapeConcat(a: string, b: string)
    ensures Escape(a + b) == Escape(a) + Escape(b)
  {
    hide Replace;
    ReplaceConcat(a, b, BACKSLASH, "\\\\");
    var a1, b1 := Replace(a, BACKSLASH, "\\\\"), Replace(b, BACKSLASH, "\\\\");
    ReplaceConcat(a1, b1, '%', "\\%");
    ReplaceConcat(Replace(a1, '%', "\\%"), Replace(b1, '%', "\\%"), '_', "\\_");
  }

  lemma ReplaceOne(x: char, c: char, r: string)
    ensures Replace([x], c, r) == if x == c then r else [x]
  {
    assert [x][1..] == [];
  }

  lemma EscapeOne(c: char)
    ensures Escape([c]) == if c == BACKSLASH || c == '%' || c == '_' then [BACKSLASH, c] else [c]
  {
    hide Replace;
    ReplaceOne(c, BACKSLASH, "\\\\");
    ReplaceOne(c, '%', "\\%");
    ReplaceOne(c, '_', "\\_");
    ReplaceOne(BACKSLASH, '%', "\\%");
    ReplaceOne(BACKSLASH, '_', "\\_");
    ReplaceOne('%', '_', "\\_");
    ReplaceConcat([BACKSLASH], [BACKSLASH], '%', "\\%");
    ReplaceConcat([BACKSLASH], [BACKSLASH], '_', "\\_");
    ReplaceConcat([BACKSLASH], ['%'], '_', "\\_");
    assert "\\\\" == [BACKSLASH] + [BACKSLASH] && "\\%" == [BACKSLASH] + ['%'] && "\\_" == [BACKSLASH, '_'];
    assert [BACKSLASH] + [BACKSLASH] == [BACKSLASH, BACKSLASH] && [BACKSLASH] + ['%'] == [BACKSLASH, '%'];
  }

  lemma EscapedHead(c: char, rest: string, t: string)
    ensures Like(Escape([c]) + rest, t) <==> t != [] && t[0] == c && Like(rest, t[1..])
  {
    EscapeOne(c);
    hide Escape;
    var p := Escape([c]) + rest;
    if c == BACKSLASH || c == '%' || c == '_' {
      assert p[0] == BACKSLASH && p[1] == c && p[2..] == rest;
    } else {
      assert p[0] == c && p[1..] == rest;
    }
  }

  /** An escaped text at the front of a pattern matches itself and nothing else. */
  lemma {:induction false} EscapedMatchesItself(s: string, rest: string, t: string)
    ensures Like(Escape(s) + rest, t) <==> s <= t && Like(rest, t[|s|..])
  {
    if s == [] {
      assert Escape(s) + rest == rest && t[0..] == t;
    } else {
      hide Like, Escape;
      var c, s' := s[0], s[1..];
      assert s == [c] + s';
      EscapeConcat([c], s');
      assert Escape(s) + rest == Escape([c]) + (Escape(s') + rest);
      EscapedHead(c, Escape(s') + rest, t);
      if t != [] && t[0] == c {
        EscapedMatchesItself(s', rest, t[1..]);
        assert t == [c] + t[1..];
        assert s <= t ==> t[1..][|s'|..] == t[|s|..];
        assert s <= t <==> s' <= t[1..];
      }
    }
  }

  lemma AnythingMatches(t: string)
    ensures Like("%", t)
  {
    assert "%"[1..] == [] && t[|t|..] == [];
  }

  // ---- case ---------------------------------------------------------------

  lemma {:induction false} LowerConcat(a: string, b: string)
    ensures Lower(a + b) == Lower(a) + Lower(b) && |Lower(a)| == |a|
  {
    if a == [] {
      assert a + b == b;
    } else {
      assert (a + b)[1..] == a[1..] + b;
      LowerConcat(a[1..], b);
    }
  }

  lemma LowerOne(c: char)
    ensures Lower([c]) == [LowerChar(c)]
  {
    assert [c][1..] == [];
  }

  /** Escaping and lowering commute: the three escaped characters have no case. */
  lemma {:induction false} LowerEscape(s: string)
    ensures Lower(Escape(s)) == Escape(Lower(s))
  {
    if s != [] {
      var c, s' := s[0], s[1..];
      assert s == [c] + s';
      LowerEscape(s');
      EscapeConcat([c], s');
      EscapeConcat([LowerChar(c)], Lower(s'));
      LowerConcat(Escape([c]), Escape(s'));
      EscapeOne(c);
      EscapeOne(LowerChar(c));
      hide Escape;
      LowerOne(c);
      LowerOne(BACKSLASH);
      LowerConcat([BACKSLASH], [c]);
      assert [BACKSLASH] + [c] == [BACKSLASH, c];
    }
  }

  /** The filter finds exactly the addresses that start with, or contain, the text, up to case; wildcards and
      backslashes in the text stand for themselves. */
  lemma SearchFindsTheText(search: string, mode: SearchMode, email: string)
    ensures Ilike(LikePattern(search, mode), email) <==> Found(Lower(search), mode, Lower(email))
  {
    var s, t := Lower(search), Lower(email);
    LowerEscape(search);
    LowerOne('%');
    LowerConcat(Escape(search), "%");
    hide Escape, Lower;
    match mode
    case Prefix =>
      EscapedMatchesItself(s, "%", t);
      if s <= t {
        AnythingMatches(t[|s|..]);
      }
    case Contains =>
      LowerConcat("%", Escape(search) + "%");
      var p := "%" + (Escape(s) + "%");
      assert "%" + Escape(search) + "%" == "%" + (Escape(search) + "%");
      assert p[1..] == Escape(s) + "%" && p[0] == '%';
      forall k | 0 <= k <= |t|
        ensures Like(p[1..], t[k..]) <==> s <= t[k..]
      {
        EscapedMatchesItself(s, "%", t[k..]);
        if s <= t[k..] {
          AnythingMatches(t[k..][|s|..]);
        }
      }
  }
}
