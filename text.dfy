/** String operations used on labels, categories and column names. */
module Text {

  /** Lower-case of one character as Python's `str.lower` does it on the Latin-1
      range the input is decoded from: A-Z and the accented capitals U+00C0-U+00DE
      except the multiplication sign U+00D7. */
  function LowerChar(c: char): char {
    if 'A' <= c <= 'Z' || ('À' <= c <= 'Þ' && c != '×') then
      (c as int + 32) as char
    else
      c
  }

  predicate IsUpper(c: char) {
    'A' <= c <= 'Z' || ('À' <= c <= 'Þ' && c != '×')
  }

  function Lower(s: string): (r: string)
    ensures |r| == |s|
  {
    if s == [] then [] else [LowerChar(s[0])] + Lower(s[1..])
  }

  /** `s.replace(from, to)` for single characters. */
  function ReplaceChar(s: string, from: char, to: char): (r: string)
    ensures |r| == |s|
  {
    if s == [] then [] else [if s[0] == from then to else s[0]] + ReplaceChar(s[1..], from, to)
  }

  /** `s.replace(c, '')`: every occurrence of `c` removed. */
  function RemoveChar(s: string, c: char): (r: string)
    ensures |r| <= |s|
  {
    if s == [] then [] else (if s[0] == c then [] else [s[0]]) + RemoveChar(s[1..], c)
  }

  /** Plain substring test: `t in s`. */
  predicate Contains(s: string, t: string) {
    t <= s || (s != [] && Contains(s[1..], t))
  }

  /** `str.contains(t, case=False)` with `t` read as plain text. */
  predicate ContainsIgnoreCase(s: string, t: string) {
    Contains(Lower(s), Lower(t))
  }

  /** Column-name normalisation of the ingestion service: spaces become
      underscores, then the name is lower-cased. */
  function NormalizeColumnName(c: string): string {
    Lower(ReplaceChar(c, ' ', '_'))
  }

  lemma {:induction false} LowerAt(s: string, i: int)
    requires 0 <= i < |s|
    ensures Lower(s)[i] == LowerChar(s[i])
  {
    if i > 0 { LowerAt(s[1..], i - 1); }
  }

  lemma {:induction false} ReplaceCharAt(s: string, from: char, to: char, i: int)
    requires 0 <= i < |s|
    ensures ReplaceChar(s, from, to)[i] == if s[i] == from then to else s[i]
  {
    if i > 0 { ReplaceCharAt(s[1..], from, to, i - 1); }
  }

  /** `Lower` checked character by character. */
  lemma LowerOf(s: string, t: string)
    requires |s| == |t| && forall i :: 0 <= i < |s| ==> LowerChar(s[i]) == t[i]
    ensures Lower(s) == t
  {
    forall i | 0 <= i < |s| ensures Lower(s)[i] == t[i] {
      LowerAt(s, i);
    }
  }

  /** A normalised name has the length of the original, no space and no
      upper-case letter, and differs from it only where it had a space or a capital. */
  lemma NormalizeColumnNameAt(c: string, i: int)
    requires 0 <= i < |c|
    ensures |NormalizeColumnName(c)| == |c|
    ensures NormalizeColumnName(c)[i] != ' ' && !IsUpper(NormalizeColumnName(c)[i])
    ensures c[i] == ' ' ==> NormalizeColumnName(c)[i] == '_'
    ensures c[i] != ' ' && !IsUpper(c[i]) ==> NormalizeColumnName(c)[i] == c[i]
  {
    ReplaceCharAt(c, ' ', '_', i);
    LowerAt(ReplaceChar(c, ' ', '_'), i);
  }

  /** Normalising twice is normalising once. */
  lemma NormalizeColumnNameIdempotent(c: string)
    ensures NormalizeColumnName(NormalizeColumnName(c)) == NormalizeColumnName(c)
  {
    var n := NormalizeColumnName(c);
    forall i | 0 <= i < |n|
      ensures NormalizeColumnName(n)[i] == n[i]
    {
      NormalizeColumnNameAt(c, i);
      NormalizeColumnNameAt(n, i);
    }
  }

  /** A name without spaces or capitals is its own normal form; in particular
      "Date operation" and "Libelle operation" are never the normal form of any name. */
  lemma NormalizeColumnNameFixedPoints(c: string)
    ensures NormalizeColumnName(c) == c <==> forall i :: 0 <= i < |c| ==> c[i] != ' ' && !IsUpper(c[i])
  {
    forall i | 0 <= i < |c| { NormalizeColumnNameAt(c, i); }
  }

  /** Removing a character leaves no occurrence of it, and keeps every other character. */
  lemma {:induction false} RemoveCharSpec(s: string, c: char)
    ensures forall i :: 0 <= i < |RemoveChar(s, c)| ==> RemoveChar(s, c)[i] != c
    ensures |RemoveChar(s, c)| == |s| - multiset(s)[c]
    ensures forall d :: d != c ==> multiset(RemoveChar(s, c))[d] == multiset(s)[d]
    ensures forall i :: 0 <= i < |RemoveChar(s, c)| ==> RemoveChar(s, c)[i] in s
  {
    if s != [] {
      RemoveCharSpec(s[1..], c);
      assert s == [s[0]] + s[1..];
    }
  }

  /** Replacing `from` leaves no occurrence of it (when it differs from `to`). */
  lemma ReplaceCharRemovesAll(s: string, from: char, to: char)
    requires from != to
    ensures forall i :: 0 <= i < |s| ==> ReplaceChar(s, from, to)[i] != from
  {
    forall i | 0 <= i < |s| { ReplaceCharAt(s, from, to, i); }
  }

  /** The empty keyword occurs in every string. */
  lemma ContainsEmpty(s: string)
    ensures Contains(s, "")
  {
  }

  /** A string contains no longer string. */
  lemma {:induction false} ShorterContainsNothingLonger(s: string, t: string)
    requires |s| < |t|
    ensures !Contains(s, t)
  {
    if s != [] {
      ShorterContainsNothingLonger(s[1..], t);
    }
  }

  /** `t` occurs in `s` starting at index `i`. */
  predicate OccursAt(s: string, t: string, i: int) {
    0 <= i <= |s| - |t| && s[i..i + |t|] == t
  }

  /** The recursive substring test agrees with "some prefix, the keyword and some suffix". */
  lemma {:induction false} ContainsIffOccurs(s: string, t: string)
    ensures Contains(s, t) <==> exists i :: OccursAt(s, t, i)
  {
    if t <= s {
      assert OccursAt(s, t, 0);
    } else if s == [] {
    } else {
      ContainsIffOccurs(s[1..], t);
      if exists i :: OccursAt(s, t, i) {
        var i :| OccursAt(s, t, i);
        assert i != 0;
        assert OccursAt(s[1..], t, i - 1);
      }
      if Contains(s[1..], t) {
        var i :| OccursAt(s[1..], t, i);
        assert OccursAt(s, t, i + 1);
      }
    }
  }
}
