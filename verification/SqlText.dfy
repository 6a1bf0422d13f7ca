/** The SQLite text functions of the heal queries: `instr`, `substr` and `LIKE`. */
module SqlText {

  predicate OccursAt(text: string, w: string, i: nat) {
    i + |w| <= |text| && text[i..i + |w|] == w
  }

  predicate Occurs(text: string, w: string) {
    exists i | 0 <= i <= |text| :: OccursAt(text, w, i)
  }

  function FindFrom(text: string, w: string, i: nat): (n: nat)
    requires i <= |text|
    ensures n == 0 ==> forall k | i <= k <= |text| :: !OccursAt(text, w, k)
    ensures n > 0 ==> i < n <= |text| + 1 && OccursAt(text, w, n - 1) && forall k | i <= k < n - 1 :: !OccursAt(text, w, k)
    decreases |text| - i
  {
    if OccursAt(text, w, i) then i + 1 else if i == |text| then 0 else FindFrom(text, w, i + 1)
  }

  /** 1 plus the index of the first occurrence, or 0. */
  function Instr(text: string, w: string): (n: nat)
    ensures n == 0 <==> !Occurs(text, w)
    ensures n > 0 ==> OccursAt(text, w, n - 1) && forall k | 0 <= k < n - 1 :: !OccursAt(text, w, k)
  {
    FindFrom(text, w, 0)
  }

  function Min(a: nat, b: nat): nat {
    if a < b then a else b
  }

  /** `substr` from a 1-based position, cut off at the end of the text. */
  function Substr(text: string, start: nat, length: nat): string
    requires start > 0
  {
    text[Min(start - 1, |text|)..Min(start - 1 + length, |text|)]
  }

  /** `LIKE` ignores the case of ASCII letters only. */
  function Fold(c: char): char {
    if 'A' <= c <= 'Z' then ((c as int) + 32) as char else c
  }

  predicate LikeChar(p: char, c: char) {
    p == '_' || Fold(p) == Fold(c)
  }

  predicate Like(pattern: string, text: string)
    decreases |pattern|
  {
    if pattern == "" then text == ""
    else if pattern[0] == '%' then exists k | 0 <= k <= |text| :: Like(pattern[1..], text[k..])
    else text != "" && LikeChar(pattern[0], text[0]) && Like(pattern[1..], text[1..])
  }

  /** A pattern without `%` matches the characters from `i` on. */
  predicate LikeAt(text: string, w: string, i: nat) {
    i + |w| <= |text| && forall k | 0 <= k < |w| :: LikeChar(w[k], text[i + k])
  }

  predicate LikeBoth(text: string, a: string, b: string) {
    exists i: nat, j: nat :: i + |a| <= j <= |text| && LikeAt(text, a, i) && LikeAt(text, b, j)
  }

  lemma {:induction false} LikeLiteral(w: string, rest: string, text: string)
    requires '%' !in w
    ensures Like(w + rest, text) <==> LikeAt(text, w, 0) && Like(rest, text[|w|..])
    decreases |w|
  {
    if w == "" {
      assert w + rest == rest && text[0..] == text;
    } else if text != "" {
      LikeLiteral(w[1..], rest, text[1..]);
      assert (w + rest)[1..] == w[1..] + rest;
      if |w| <= |text| {
        assert text[1..][|w| - 1..] == text[|w|..];
      }
      assert LikeAt(text, w, 0) <==> LikeChar(w[0], text[0]) && LikeAt(text[1..], w[1..], 0) by {
        if LikeChar(w[0], text[0]) && LikeAt(text[1..], w[1..], 0) {
          forall k | 0 <= k < |w|
            ensures LikeChar(w[k], text[k])
          {
            if k > 0 {
              assert LikeChar(w[1..][k - 1], text[1..][k - 1]);
            }
          }
        }
        if LikeAt(text, w, 0) {
          forall k | 0 <= k < |w| - 1
            ensures LikeChar(w[1..][k], text[1..][k])
          {
            assert LikeChar(w[k + 1], text[0 + (k + 1)]);
          }
        }
      }
    }
  }

  lemma LikeAtShift(text: string, w: string, i: nat, j: nat)
    requires i <= |text|
    ensures LikeAt(text[i..], w, j) <==> LikeAt(text, w, i + j)
  {
    forall k | 0 <= k < |w| && i + j + |w| <= |text|
      ensures LikeChar(w[k], text[i..][j + k]) <==> LikeChar(w[k], text[i + j + k])
    {
    }
  }

  lemma LikeAnything(text: string)
    ensures Like("%", text)
  {
    assert "%"[1..] == "";
    assert text[|text|..] == "";
    assert Like("%"[1..], text[|text|..]);
  }

  /** `LIKE '%b%'`. */
  lemma LikeOne(b: string, text: string)
    requires '%' !in b
    ensures Like("%" + (b + "%"), text) <==> exists j: nat :: j <= |text| && LikeAt(text, b, j)
  {
    hide LikeAt, LikeChar;
    var p := "%" + (b + "%");
    assert p[1..] == b + "%";
    forall j | 0 <= j <= |text|
      ensures Like(p[1..], text[j..]) <==> LikeAt(text, b, j)
    {
      LikeLiteral(b, "%", text[j..]);
      LikeAtShift(text, b, j, 0);
      if LikeAt(text, b, j) {
        assert |b| <= |text[j..]| by { LikeAtLength(text, b, j); }
        LikeAnything(text[j..][|b|..]);
      }
    }
  }

  lemma LikeAtLength(text: string, w: string, i: nat)
    requires LikeAt(text, w, i)
    ensures i + |w| <= |text|
  {
  }

  /** What `LIKE '%a%b%'` says of a text: `a` somewhere, and `b` somewhere after it. */
  lemma LikeIsBoth(a: string, b: string, text: string)
    requires '%' !in a && '%' !in b
    ensures Like("%" + (a + ("%" + (b + "%"))), text) <==> LikeBoth(text, a, b)
  {
    hide LikeAt, LikeChar;
    var tail := "%" + (b + "%");
    var p := "%" + (a + tail);
    assert p[1..] == a + tail;
    forall i | 0 <= i <= |text|
      ensures Like(p[1..], text[i..]) <==> LikeAt(text, a, i) && exists j: nat :: i + |a| <= j <= |text| && LikeAt(text, b, j)
    {
      LikeLiteral(a, tail, text[i..]);
      LikeAtShift(text, a, i, 0);
      if LikeAt(text, a, i) {
        LikeAtLength(text, a, i);
        var rest := text[i..][|a|..];
        assert rest == text[i + |a|..];
        LikeOne(b, rest);
        forall j: nat
          ensures LikeAt(rest, b, j) <==> LikeAt(text, b, i + |a| + j)
        {
          LikeAtShift(text, b, i + |a|, j);
        }
        if exists j: nat :: i + |a| <= j <= |text| && LikeAt(text, b, j) {
          var j: nat :| i + |a| <= j <= |text| && LikeAt(text, b, j);
          assert LikeAt(rest, b, j - i - |a|);
        }
      }
    }
    if LikeBoth(text, a, b) {
      var i: nat, j: nat :| i + |a| <= j <= |text| && LikeAt(text, a, i) && LikeAt(text, b, j);
      assert Like(p[1..], text[i..]);
    }
    if Like(p, text) {
      var i :| 0 <= i <= |text| && Like(p[1..], text[i..]);
      assert LikeAt(text, a, i);
    }
  }
}
