/** The parts of java.lang.String that the task code relies on, with Java's own semantics:
    String.trim, String.split, String.join, toLowerCase, contains, startsWith/endsWith,
    Integer.toString, and the "null" text a null reference turns into when it is joined. */
module JavaText {

  /** A Java reference that may be null. */
  datatype Option<+T> = None | Some(value: T)

  /** The text that String.join and string concatenation produce for a possibly-null string. */
  function Show(s: Option<string>): string
  {
    if s.Some? then s.value else "null"
  }

  // ----- trim / isEmpty -----

  function TrimStart(s: string): string
  {
    if s != [] && s[0] <= ' ' then TrimStart(s[1..]) else s
  }

  function TrimEnd(s: string): string
  {
    if s != [] && s[|s| - 1] <= ' ' then TrimEnd(s[..|s| - 1]) else s
  }

  /** String.trim: removes every leading and trailing character whose code is at most U+0020. */
  function Trim(s: string): string
  {
    TrimEnd(TrimStart(s))
  }

  /** s.trim().isEmpty() */
  predicate IsBlank(s: string)
  {
    Trim(s) == ""
  }

  lemma {:induction false} TrimStartEmpty(s: string)
    ensures TrimStart(s) == "" <==> forall i :: 0 <= i < |s| ==> s[i] <= ' '
  {
    if s != [] && s[0] <= ' ' {
      TrimStartEmpty(s[1..]);
      assert forall i :: 1 <= i < |s| ==> s[i] == s[1..][i - 1];
    }
  }

  lemma {:induction false} TrimEndEmpty(s: string)
    ensures TrimEnd(s) == "" <==> forall i :: 0 <= i < |s| ==> s[i] <= ' '
  {
    if s != [] && s[|s| - 1] <= ' ' {
      TrimEndEmpty(s[..|s| - 1]);
      assert forall i :: 0 <= i < |s| - 1 ==> s[i] == s[..|s| - 1][i];
    }
  }

  /** A string is blank exactly when every one of its characters is a control character or a space. */
  lemma BlankIff(s: string)
    ensures IsBlank(s) <==> forall i :: 0 <= i < |s| ==> s[i] <= ' '
  {
    TrimStartEmpty(s);
    TrimEndEmpty(TrimStart(s));
    TrimStartSuffix(s);
  }

  lemma {:induction false} TrimStartSuffix(s: string)
    ensures |TrimStart(s)| <= |s| && TrimStart(s) == s[|s| - |TrimStart(s)|..]
    ensures forall i :: 0 <= i < |s| - |TrimStart(s)| ==> s[i] <= ' '
    ensures TrimStart(s) != "" ==> TrimStart(s)[0] > ' '
  {
    if s != [] && s[0] <= ' ' {
      TrimStartSuffix(s[1..]);
    }
  }

  // ----- lower case, substring search -----

  /** Character.toLowerCase, restricted to the ASCII letters. */
  function LowerChar(c: char): char
  {
    if 'A' <= c <= 'Z' then (c as int + 32) as char else c
  }

  /** String.toLowerCase, restricted to the ASCII letters: same length, each letter lowered. */
  function ToLower(s: string): (r: string)
    ensures |r| == |s|
    ensures forall i :: 0 <= i < |s| ==> r[i] == LowerChar(s[i])
  {
    seq(|s|, i requires 0 <= i < |s| => LowerChar(s[i]))
  }

  /** String.equalsIgnoreCase against a possibly-null argument (ASCII case folding). */
  predicate EqualsIgnoreCase(s: string, other: Option<string>)
  {
    other.Some? && ToLower(s) == ToLower(other.value)
  }

  /** part occurs in text starting at index i */
  predicate OccursAt(text: string, part: string, i: int)
  {
    0 <= i && i + |part| <= |text| && text[i..i + |part|] == part
  }

  /** String.contains, computed by trying every start position in turn. */
  predicate Contains(text: string, part: string)
    decreases |text|
  {
    if |part| <= |text| && text[..|part|] == part then true
    else if text == [] then false
    else Contains(text[1..], part)
  }

  /** The search agrees with the definition of a substring. */
  lemma {:induction false} ContainsIff(text: string, part: string)
    ensures Contains(text, part) <==> exists i :: OccursAt(text, part, i)
    decreases |text|
  {
    if |part| <= |text| && text[..|part|] == part {
      assert OccursAt(text, part, 0);
    } else if text == [] {
    } else {
      ContainsIff(text[1..], part);
      if exists i :: OccursAt(text[1..], part, i) {
        var i :| OccursAt(text[1..], part, i);
        assert text[1..][i..i + |part|] == text[i + 1..i + 1 + |part|];
        assert OccursAt(text, part, i + 1);
      }
      if exists i :: OccursAt(text, part, i) {
        var i :| OccursAt(text, part, i);
        assert i != 0;
        assert text[1..][i - 1..i - 1 + |part|] == text[i..i + |part|];
        assert OccursAt(text[1..], part, i - 1);
      }
    }
  }

  predicate StartsWith(s: string, prefix: string)
  {
    |prefix| <= |s| && s[..|prefix|] == prefix
  }

  predicate EndsWith(s: string, suffix: string)
  {
    |suffix| <= |s| && s[|s| - |suffix|..] == suffix
  }

  // ----- join -----

  /** String.join(sep, parts) */
  function Join(sep: string, parts: seq<string>): string
  {
    if parts == [] then ""
    else if |parts| == 1 then parts[0]
    else parts[0] + sep + Join(sep, parts[1..])
  }

  /** Joining two non-empty lists puts exactly one separator between their joins. */
  lemma {:induction false} JoinAppend(sep: string, a: seq<string>, b: seq<string>)
    requires a != [] && b != []
    ensures Join(sep, a + b) == Join(sep, a) + sep + Join(sep, b)
  {
    if |a| == 1 {
      assert (a + b)[1..] == b;
    } else {
      assert (a + b)[1..] == a[1..] + b;
      JoinAppend(sep, a[1..], b);
    }
  }

  // ----- split -----

  predicate HasAny(s: string, delims: set<char>)
  {
    s != [] && (s[0] in delims || HasAny(s[1..], delims))
  }

  lemma {:induction false} HasAnyIff(s: string, delims: set<char>)
    ensures HasAny(s, delims) <==> exists i :: 0 <= i < |s| && s[i] in delims
  {
    if s != [] {
      HasAnyIff(s[1..], delims);
      assert forall i :: 1 <= i < |s| ==> s[i] == s[1..][i - 1];
    }
  }

  /** The pieces between delimiter characters, empty ones included: n delimiters give n + 1 pieces. */
  function Pieces(s: string, delims: set<char>): (r: seq<string>)
    ensures |r| >= 1
    decreases |s|
  {
    if s == [] then [""]
    else
      var rest := Pieces(s[1..], delims);
      if s[0] in delims then [""] + rest else [[s[0]] + rest[0]] + rest[1..]
  }

  /** Drops the empty strings at the end of a list. */
  function DropTrailingEmpty(r: seq<string>): (t: seq<string>)
    ensures |t| <= |r| && t == r[..|t|]
    ensures t == [] || t[|t| - 1] != ""
    ensures forall k :: |t| <= k < |r| ==> r[k] == ""
  {
    if r == [] then []
    else if r[|r| - 1] == "" then DropTrailingEmpty(r[..|r| - 1])
    else r
  }

  /** String.split with a one-character-class pattern and no limit: a string without any delimiter
      splits into itself (so "" gives [""]); otherwise the pieces lose their trailing empty strings
      (so "a,b," gives [a, b] and "," gives []). */
  function Split(s: string, delims: set<char>): seq<string>
  {
    if !HasAny(s, delims) then [s] else DropTrailingEmpty(Pieces(s, delims))
  }

  /** Every character of a piece is a character of the split string. */
  lemma {:induction false} PiecesChars(s: string, delims: set<char>)
    ensures forall k, j :: 0 <= k < |Pieces(s, delims)| && 0 <= j < |Pieces(s, delims)[k]| ==> Pieces(s, delims)[k][j] in s
    decreases |s|
  {
    if s != [] {
      PiecesChars(s[1..], delims);
      var rest := Pieces(s[1..], delims);
      forall k, j | 0 <= k < |Pieces(s, delims)| && 0 <= j < |Pieces(s, delims)[k]|
        ensures Pieces(s, delims)[k][j] in s
      {
        if s[0] in delims {
          assert Pieces(s, delims)[k][j] == rest[k - 1][j];
          assert rest[k - 1][j] in s[1..];
        } else if k == 0 {
          if j > 0 {
            assert Pieces(s, delims)[k][j] == rest[0][j - 1];
            assert rest[0][j - 1] in s[1..];
          }
        } else {
          assert Pieces(s, delims)[k][j] == rest[k][j];
          assert rest[k][j] in s[1..];
        }
      }
    }
  }

  /** Every character of an element of Split(s, delims) is a character of s. */
  lemma SplitChars(s: string, delims: set<char>)
    ensures forall k, j :: 0 <= k < |Split(s, delims)| && 0 <= j < |Split(s, delims)[k]| ==> Split(s, delims)[k][j] in s
  {
    if HasAny(s, delims) {
      PiecesChars(s, delims);
      var p := Pieces(s, delims);
      var t := DropTrailingEmpty(p);
      assert forall k :: 0 <= k < |t| ==> t[k] == p[k];
    }
  }

  /** A string that neither starts nor ends with a character at most U+0020 is its own trim. */
  lemma TrimNoop(s: string)
    requires s == [] || (s[0] > ' ' && s[|s| - 1] > ' ')
    ensures Trim(s) == s
  {
  }

  /** No piece holds a delimiter. */
  lemma {:induction false} PiecesFree(s: string, delims: set<char>)
    ensures forall k :: 0 <= k < |Pieces(s, delims)| ==> !HasAny(Pieces(s, delims)[k], delims)
    decreases |s|
  {
    if s != [] {
      PiecesFree(s[1..], delims);
      var rest := Pieces(s[1..], delims);
      if s[0] !in delims {
        assert ([s[0]] + rest[0])[1..] == rest[0];
      }
    }
  }

  /** The last piece is empty exactly when the string is empty or ends with a delimiter. */
  lemma {:induction false} LastPiece(s: string, delims: set<char>)
    ensures var r := Pieces(s, delims); r[|r| - 1] == "" <==> s == [] || s[|s| - 1] in delims
    decreases |s|
  {
    if s != [] {
      LastPiece(s[1..], delims);
      var rest := Pieces(s[1..], delims);
      if s[0] !in delims && |rest| == 1 {
        assert s[1..] == [] || s[|s| - 1] == s[1..][|s[1..]| - 1];
      } else {
        assert s[1..] != [] ==> s[|s| - 1] == s[1..][|s[1..]| - 1];
      }
    }
  }

  /** Joining the pieces with the delimiter gives the string back. */
  lemma {:induction false} JoinPieces(s: string, c: char)
    ensures Join([c], Pieces(s, {c})) == s
    decreases |s|
  {
    if s != [] {
      JoinPieces(s[1..], c);
      var rest := Pieces(s[1..], {c});
      if s[0] == c {
        assert ([""] + rest)[1..] == rest;
      } else {
        JoinConsFirst([c], [s[0]], rest);
      }
    }
  }

  lemma JoinConsFirst(sep: string, a: string, r: seq<string>)
    requires r != []
    ensures Join(sep, [a + r[0]] + r[1..]) == a + Join(sep, r)
  {
    if |r| > 1 {
      assert ([a + r[0]] + r[1..])[1..] == r[1..];
    }
  }

  /** Split and join are inverse when the string does not end with the delimiter: the trailing-empty rule
      is the only information Split loses. */
  lemma SplitJoin(s: string, c: char)
    requires s == [] || s[|s| - 1] != c
    ensures Join([c], Split(s, {c})) == s
  {
    if HasAny(s, {c}) {
      LastPiece(s, {c});
      JoinPieces(s, c);
    }
  }

  /** Splitting a string that ends with the delimiter yields strictly fewer strings than it has pieces. */
  lemma SplitDropsTrailing(s: string, c: char)
    requires s != [] && s[|s| - 1] == c
    ensures |Split(s, {c})| < |Pieces(s, {c})|
  {
    HasAnyIff(s, {c});
    LastPiece(s, {c});
  }

  /** Pieces of a joined list of delimiter-free strings are the strings themselves. */
  lemma {:induction false} PiecesOfJoin(parts: seq<string>, c: char)
    requires parts != []
    requires forall k :: 0 <= k < |parts| ==> !HasAny(parts[k], {c})
    ensures Pieces(Join([c], parts), {c}) == parts
    decreases |parts|
  {
    if |parts| == 1 {
      PiecesOfFree(parts[0], [], c);
      assert parts[0] + [] == parts[0];
      assert parts[0] + "" == parts[0];
    } else {
      PiecesOfJoin(parts[1..], c);
      var tail := Join([c], parts[1..]);
      assert Pieces([c] + tail, {c}) == [""] + parts[1..] by {
        assert ([c] + tail)[1..] == tail;
      }
      assert Join([c], parts) == parts[0] + ([c] + tail);
      PiecesOfFree(parts[0], [c] + tail, c);
      assert parts[0] + "" == parts[0];
      assert [parts[0]] + parts[1..] == parts;
    }
  }

  /** A delimiter-free prefix is glued onto the first piece of what follows it. */
  lemma {:induction false} PiecesOfFree(a: string, t: string, c: char)
    requires !HasAny(a, {c})
    ensures Pieces(a + t, {c}) == [a + Pieces(t, {c})[0]] + Pieces(t, {c})[1..]
    decreases |a|
  {
    if a != [] {
      PiecesOfFree(a[1..], t, c);
      assert (a + t)[1..] == a[1..] + t;
      assert [a[0]] + (a[1..] + Pieces(t, {c})[0]) == a + Pieces(t, {c})[0];
    } else {
      assert a + t == t;
      assert a + Pieces(t, {c})[0] == Pieces(t, {c})[0];
    }
  }

  /** A comma-joined list of comma-free strings splits back into the list, provided the
      last string is not empty (Java drops trailing empty strings) or the list has one element. */
  lemma SplitOfJoin(parts: seq<string>, c: char)
    requires parts != []
    requires forall k :: 0 <= k < |parts| ==> !HasAny(parts[k], {c})
    requires |parts| == 1 || parts[|parts| - 1] != ""
    ensures Split(Join([c], parts), {c}) == parts
  {
    if |parts| == 1 {
      assert Join([c], parts) == parts[0];
    } else {
      PiecesOfJoin(parts, c);
      JoinHasDelimiter(parts, c);
    }
  }

  /** Splitting a join of two or more delimiter-free strings gives them back without the trailing
      empty ones. */
  lemma SplitOfPieces(parts: seq<string>, c: char)
    requires |parts| > 1
    requires forall k :: 0 <= k < |parts| ==> !HasAny(parts[k], {c})
    ensures Split(Join([c], parts), {c}) == DropTrailingEmpty(parts)
  {
    PiecesOfJoin(parts, c);
    JoinHasDelimiter(parts, c);
  }

  /** Pieces only depend on which characters of the string are delimiters. */
  lemma {:induction false} PiecesRestrict(s: string, d: set<char>, e: set<char>)
    requires forall i :: 0 <= i < |s| ==> (s[i] in d <==> s[i] in e)
    ensures Pieces(s, d) == Pieces(s, e)
    decreases |s|
  {
    if s != [] {
      assert forall i :: 0 <= i < |s[1..]| ==> s[1..][i] == s[i + 1];
      PiecesRestrict(s[1..], d, e);
    }
  }

  /** Split only depends on which characters of the string are delimiters. */
  lemma SplitRestrict(s: string, d: set<char>, e: set<char>)
    requires forall i :: 0 <= i < |s| ==> (s[i] in d <==> s[i] in e)
    ensures Split(s, d) == Split(s, e)
  {
    HasAnyIff(s, d);
    HasAnyIff(s, e);
    PiecesRestrict(s, d, e);
  }

  /** Joining strings free of a set of characters with c leaves c as the only character of the set. */
  lemma {:induction false} JoinOnlySeparator(parts: seq<string>, c: char, d: set<char>)
    requires forall k :: 0 <= k < |parts| ==> !HasAny(parts[k], d)
    ensures forall i :: 0 <= i < |Join([c], parts)| && Join([c], parts)[i] in d ==> Join([c], parts)[i] == c
    decreases |parts|
  {
    if parts != [] {
      HasAnyIff(parts[0], d);
      if |parts| > 1 {
        JoinOnlySeparator(parts[1..], c, d);
        var tail := Join([c], parts[1..]);
        var j := Join([c], parts);
        assert j == parts[0] + [c] + tail;
        forall i | 0 <= i < |j| && j[i] in d
          ensures j[i] == c
        {
          if i > |parts[0]| {
            assert j[i] == tail[i - |parts[0]| - 1];
          }
        }
      }
    }
  }

  lemma JoinHasDelimiter(parts: seq<string>, c: char)
    requires |parts| > 1
    ensures HasAny(Join([c], parts), {c})
  {
    var j := Join([c], parts);
    assert j == parts[0] + [c] + Join([c], parts[1..]);
    assert j[|parts[0]|] == c;
    HasAnyIff(j, {c});
  }

  // ----- Integer.toString -----

  function DigitChar(d: nat): char
    requires d < 10
  {
    (48 + d) as char
  }

  function DigitValue(c: char): nat
  {
    if '0' <= c <= '9' then c as int - 48 else 0
  }

  /** Decimal digits of a non-negative number, most significant first, no leading zeros. */
  function NatToString(n: nat): (r: string)
    ensures r != [] && '0' <= r[0] <= '9'
    decreases n
  {
    if n < 10 then [DigitChar(n)] else NatToString(n / 10) + [DigitChar(n % 10)]
  }

  /** Integer.toString: a minus sign for negative numbers, then the decimal digits. */
  function IntToString(n: int): string
  {
    if n < 0 then "-" + NatToString(-n) else NatToString(n)
  }

  function ParseNat(s: string): nat
  {
    if s == [] then 0 else ParseNat(s[..|s| - 1]) * 10 + DigitValue(s[|s| - 1])
  }

  /** Reads back what IntToString writes. */
  function ParseInt(s: string): int
  {
    if s != [] && s[0] == '-' then 0 - ParseNat(s[1..]) else ParseNat(s)
  }

  lemma {:induction false} NatRoundTrip(n: nat)
    ensures ParseNat(NatToString(n)) == n
    decreases n
  {
    if n >= 10 {
      NatRoundTrip(n / 10);
      var s := NatToString(n);
      assert s[..|s| - 1] == NatToString(n / 10);
    }
  }

  /** IntToString loses nothing: the number can be read back from its text. */
  lemma IntRoundTrip(n: int)
    ensures ParseInt(IntToString(n)) == n
  {
    if n < 0 {
      NatRoundTrip(-n);
      assert ("-" + NatToString(-n))[1..] == NatToString(-n);
    } else {
      NatRoundTrip(n);
    }
  }
}
