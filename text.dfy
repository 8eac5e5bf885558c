/**
 * The string primitives the chat assistant relies on: ASCII lower-casing
 * (`toLowerCase`), substring search (`includes`), and splitting and joining
 * on a separator (`split`, `join`).
 */
module Text {

  /** Lower-cases one ASCII capital letter; every other character is kept. */
  function LowerChar(c: char): (r: char)
    ensures 'A' <= c <= 'Z' ==> r as int == c as int + 32
    ensures !('A' <= c <= 'Z') ==> r == c
  {
    if 'A' <= c <= 'Z' then (c as int + 32) as char else c
  }

  /** `toLowerCase`, restricted to the ASCII letters. */
  function Lower(s: string): (r: string)
    ensures |r| == |s|
    ensures forall i :: 0 <= i < |s| ==> r[i] == LowerChar(s[i])
  {
    seq(|s|, i requires 0 <= i < |s| => LowerChar(s[i]))
  }

  /** A lower-cased string holds no ASCII capital, and lower-casing it again changes nothing. */
  lemma LowerIsLower(s: string)
    ensures forall i :: 0 <= i < |Lower(s)| ==> !('A' <= Lower(s)[i] <= 'Z')
    ensures Lower(Lower(s)) == Lower(s)
  {
  }

  /** `p[j..]` equals the characters of `s` from `i + j` on, compared one at a time. */
  predicate OccursAt(s: string, p: string, i: nat, j: nat)
    decreases |p| - j
  {
    j >= |p| || (i + j < |s| && s[i + j] == p[j] && OccursAt(s, p, i, j + 1))
  }

  /** `p` occurs in `s` at some position `i` or later. */
  predicate OccursFrom(s: string, p: string, i: nat)
    decreases |s| - i
  {
    i + |p| <= |s| && (OccursAt(s, p, i, 0) || OccursFrom(s, p, i + 1))
  }

  /** `s.includes(p)`: a pattern longer than the string is never found, the empty pattern always is. */
  predicate Contains(s: string, p: string): (r: bool)
    ensures r ==> |p| <= |s|
    ensures p == [] ==> r
  {
    OccursFrom(s, p, 0)
  }

  /** The slice of `s` at position `k` is `p`: the meaning of "p occurs in s at k". */
  predicate MatchesAt(s: string, p: string, k: nat) {
    k + |p| <= |s| && s[k..k + |p|] == p
  }

  lemma {:induction false} OccursAtIff(s: string, p: string, i: nat, j: nat)
    requires i + |p| <= |s| && j <= |p|
    ensures OccursAt(s, p, i, j) <==> s[i + j..i + |p|] == p[j..]
    decreases |p| - j
  {
    if j < |p| {
      OccursAtIff(s, p, i, j + 1);
      assert s[i + j..i + |p|] == [s[i + j]] + s[i + j + 1..i + |p|];
      assert p[j..] == [p[j]] + p[j + 1..];
    }
  }

  lemma {:induction false} OccursFromIff(s: string, p: string, i: nat)
    ensures OccursFrom(s, p, i) <==> exists k: nat :: i <= k && MatchesAt(s, p, k)
    decreases |s| - i
  {
    if i + |p| <= |s| {
      OccursAtIff(s, p, i, 0);
      OccursFromIff(s, p, i + 1);
      assert p[0..] == p;
      if OccursAt(s, p, i, 0) {
        assert MatchesAt(s, p, i);
      }
      if exists k: nat :: i <= k && MatchesAt(s, p, k) {
        var k: nat :| i <= k && MatchesAt(s, p, k);
        if k == i {
          assert OccursAt(s, p, i, 0);
        }
      }
    }
  }

  /** `p` is the slice of `s` at some position: what `includes` means. */
  ghost predicate Occurs(s: string, p: string) {
    exists k: nat :: MatchesAt(s, p, k)
  }

  /** `includes` holds exactly when `p` is the slice of `s` at some position. */
  lemma ContainsIff(s: string, p: string)
    ensures Contains(s, p) <==> Occurs(s, p)
  {
    OccursFromIff(s, p, 0);
  }

  /** Whatever a string is built around, it contains the middle part. */
  lemma OccursMiddle(a: string, b: string, c: string)
    ensures Occurs(a + b + c, b) && Contains(a + b + c, b)
  {
    var s := a + b + c;
    assert s[|a|..|a| + |b|] == b;
    assert MatchesAt(s, b, |a|);
    ContainsIff(s, b);
  }

  /** Nothing but the empty string occurs in the empty string, and no pattern longer than the string occurs. */
  lemma ContainsBounds(s: string, p: string)
    ensures Contains(s, p) ==> |p| <= |s|
    ensures Contains("", p) <==> p == ""
  {
    ContainsIff(s, p);
    ContainsIff("", p);
    if p == "" {
      assert MatchesAt("", p, 0);
    }
  }

  /** A pattern holding a character that the string lacks does not occur in it. */
  lemma MissingChar(s: string, p: string, c: char)
    requires c in p && c !in s
    ensures !Contains(s, p)
  {
    var j :| 0 <= j < |p| && p[j] == c;
    forall k: nat | k + |p| <= |s|
      ensures !MatchesAt(s, p, k)
    {
      assert s[k..k + |p|][j] == s[k + j] != c;
    }
    ContainsIff(s, p);
  }

  /** Both halves of a concatenation occur in it. */
  lemma OccursHalves(a: string, b: string)
    ensures Occurs(a + b, a) && Occurs(a + b, b)
  {
    assert (a + b)[0..|a|] == a;
    assert MatchesAt(a + b, a, 0);
    assert (a + b)[|a|..|a| + |b|] == b;
    assert MatchesAt(a + b, b, |a|);
  }

  /** Occurrence is transitive: what occurs in a part of `s` occurs in `s`. */
  lemma OccursTrans(s: string, t: string, p: string)
    requires Occurs(s, t) && Occurs(t, p)
    ensures Occurs(s, p)
  {
    var k: nat :| MatchesAt(s, t, k);
    var j: nat :| MatchesAt(t, p, j);
    forall m | 0 <= m < |p|
      ensures s[k + j..k + j + |p|][m] == p[m]
    {
      assert s[k..k + |t|][j + m] == t[j + m];
      assert t[j..j + |p|][m] == p[m];
    }
    assert s[k + j..k + j + |p|] == p;
    assert MatchesAt(s, p, k + j);
  }

  /** `s.split(sep)` for a one-character separator: the pieces between separators, always at least one. */
  function Split(s: string, sep: char): (r: seq<string>)
    ensures |r| >= 1
    ensures forall k :: 0 <= k < |r| ==> sep !in r[k]
  {
    if s == [] then [[]]
    else
      var rest := Split(s[1..], sep);
      if s[0] == sep then [[]] + rest
      else [[s[0]] + rest[0]] + rest[1..]
  }

  /** The total length of `pieces`. */
  function TotalLength(pieces: seq<string>): nat {
    if pieces == [] then 0 else |pieces[0]| + TotalLength(pieces[1..])
  }

  /** `pieces.join(sep)`: the pieces with one separator between each two neighbours. */
  function Join(pieces: seq<string>, sep: string): (r: string)
    ensures |r| == TotalLength(pieces) + if pieces == [] then 0 else (|pieces| - 1) * |sep|
  {
    if |pieces| == 0 then ""
    else if |pieces| == 1 then pieces[0]
    else pieces[0] + sep + Join(pieces[1..], sep)
  }

  /** Every piece occurs in the joined string. */
  lemma {:induction false} JoinOccursPiece(pieces: seq<string>, sep: string, i: nat)
    requires i < |pieces|
    ensures Occurs(Join(pieces, sep), pieces[i])
    decreases |pieces|
  {
    if |pieces| == 1 {
      OccursMiddle("", pieces[0], "");
      assert "" + pieces[0] + "" == pieces[0];
    } else if i == 0 {
      OccursHalves(pieces[0], sep + Join(pieces[1..], sep));
      assert pieces[0] + (sep + Join(pieces[1..], sep)) == Join(pieces, sep);
    } else {
      var rest := Join(pieces[1..], sep);
      JoinOccursPiece(pieces[1..], sep, i - 1);
      OccursHalves(pieces[0] + sep, rest);
      OccursTrans(Join(pieces, sep), rest, pieces[i]);
    }
  }

  /** Joining one more piece on the right adds the separator and the piece. */
  lemma {:induction false} JoinSnoc(pieces: seq<string>, x: string, sep: string)
    ensures Join(pieces + [x], sep) == if pieces == [] then x else Join(pieces, sep) + sep + x
  {
    if |pieces| >= 2 {
      assert (pieces + [x])[1..] == pieces[1..] + [x];
      JoinSnoc(pieces[1..], x, sep);
    } else if |pieces| == 1 {
      assert (pieces + [x])[1..] == [x];
    }
  }

  /** Joining one more word of a prefix appends the separator (unless it is the first word) and the word. */
  lemma JoinPrefixStep(words: seq<string>, i: nat, sep: string)
    requires i < |words|
    ensures Join(words[..i + 1], sep) == Join(words[..i], sep) + (if i == 0 then "" else sep) + words[i]
  {
    JoinSnoc(words[..i], words[i], sep);
    assert words[..i + 1] == words[..i] + [words[i]];
  }

  /** Joining the pieces of a split with the same separator gives back the string. */
  lemma {:induction false} JoinSplit(s: string, sep: char)
    ensures Join(Split(s, sep), [sep]) == s
  {
    if s != [] {
      var rest := Split(s[1..], sep);
      JoinSplit(s[1..], sep);
      if s[0] == sep {
        assert ([[]] + rest)[1..] == rest;
      } else {
        var r := [[s[0]] + rest[0]] + rest[1..];
        if |rest| > 1 {
          assert r[1..] == rest[1..];
        }
      }
    }
  }

  /** Splitting a join of separator-free pieces gives back the pieces. */
  lemma {:induction false} SplitJoin(pieces: seq<string>, sep: char)
    requires |pieces| >= 1
    requires forall k :: 0 <= k < |pieces| ==> sep !in pieces[k]
    ensures Split(Join(pieces, [sep]), sep) == pieces
  {
    if |pieces| == 1 {
      SplitPiece(pieces[0], [], sep);
      assert pieces[0] + [] == pieces[0];
    } else {
      SplitJoin(pieces[1..], sep);
      var tail := Join(pieces[1..], [sep]);
      SplitPiece(pieces[0], [sep] + tail, sep);
      assert pieces[0] + [sep] + tail == pieces[0] + ([sep] + tail);
      assert ([sep] + tail)[1..] == tail;
      assert [pieces[0]] + pieces[1..] == pieces;
    }
  }

  /** A separator-free prefix is glued onto the first piece of what follows it. */
  lemma {:induction false} SplitPiece(w: string, rest: string, sep: char)
    requires sep !in w
    ensures Split(w + rest, sep) == [w + Split(rest, sep)[0]] + Split(rest, sep)[1..]
      && (rest == [] ==> Split(w + rest, sep) == [w])
      && (rest != [] && rest[0] == sep ==> Split(w + rest, sep) == [w] + Split(rest[1..], sep))
  {
    var tail := Split(rest, sep);
    if w == [] {
      assert w + rest == rest;
      assert w + tail[0] == tail[0];
      assert [tail[0]] + tail[1..] == tail;
    } else {
      SplitPiece(w[1..], rest, sep);
      assert (w + rest)[0] == w[0] != sep;
      assert (w + rest)[1..] == w[1..] + rest;
      assert [w[0]] + (w[1..] + tail[0]) == w + tail[0];
    }
    if rest == [] {
      assert tail == [[]];
      assert w + tail[0] == w;
    } else if rest[0] == sep {
      assert tail == [[]] + Split(rest[1..], sep);
      assert w + tail[0] == w;
    }
  }
}
