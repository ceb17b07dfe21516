/** The string operations the courier relies on: trimming, splitting, joining,
    lower-casing and decimal conversion; with the option type and what several modules need
    of sets. */
module Text {

  datatype Option<+T> = None | Some(value: T)

  lemma SubsetSmaller<T>(a: set<T>, b: set<T>)
    requires a <= b
    ensures |a| <= |b|
  {
    assert b == a + (b - a);
  }

  function Elements(s: seq<string>): set<string> { set x | x in s }

  /** unicode.IsSpace */
  predicate IsSpace(c: char) {
    || ('\t' <= c <= '\r') || c == ' ' || c == '\U{0085}' || c == '\U{00A0}' || c == '\U{1680}'
    || ('\U{2000}' <= c <= '\U{200A}') || c == '\U{2028}' || c == '\U{2029}'
    || c == '\U{202F}' || c == '\U{205F}' || c == '\U{3000}'
  }

  function TrimLeft(s: string): (r: string)
    ensures r != "" ==> !IsSpace(r[0])
    ensures forall c :: c in r ==> c in s
  {
    if s == "" || !IsSpace(s[0]) then s else TrimLeft(s[1..])
  }

  function TrimRight(s: string): (r: string)
    ensures r != "" ==> s != "" && !IsSpace(r[|r| - 1]) && r[0] == s[0]
    ensures forall c :: c in r ==> c in s
  {
    if s == "" || !IsSpace(s[|s| - 1]) then s else TrimRight(s[..|s| - 1])
  }

  function TrimSpace(s: string): (r: string)
    ensures Trimmed(r)
    ensures forall c :: c in r ==> c in s
  {
    TrimRight(TrimLeft(s))
  }

  predicate Trimmed(s: string) {
    s != "" ==> !IsSpace(s[0]) && !IsSpace(s[|s| - 1])
  }

  predicate Blank(s: string) { forall i :: 0 <= i < |s| ==> IsSpace(s[i]) }

  /** Trimming cuts off spaces and nothing else; only blank texts become empty. */
  lemma TrimExact(s: string)
    ensures exists a, b :: s == a + TrimSpace(s) + b && Blank(a) && Blank(b)
    ensures TrimSpace(s) == "" <==> Blank(s)
  {
    var t := TrimLeft(s);
    var a := TrimLeftCuts(s);
    var b := TrimRightCuts(t);
    assert s == a + TrimSpace(s) + b;
    if TrimSpace(s) == "" {
      assert s == a + b;
    } else {
      assert s[|a|] == TrimSpace(s)[0];
    }
  }

  lemma {:induction false} TrimLeftCuts(s: string) returns (a: string)
    ensures s == a + TrimLeft(s) && Blank(a)
  {
    a := "";
    if s != "" && IsSpace(s[0]) {
      var rest := TrimLeftCuts(s[1..]);
      a := [s[0]] + rest;
    }
  }

  lemma {:induction false} TrimRightCuts(s: string) returns (b: string)
    ensures s == TrimRight(s) + b && Blank(b)
  {
    b := "";
    if s != "" && IsSpace(s[|s| - 1]) {
      var rest := TrimRightCuts(s[..|s| - 1]);
      b := rest + [s[|s| - 1]];
    }
  }

  /** Lower-casing, exact for comparisons with ASCII words: besides A-Z only the
      dotted capital I and the Kelvin sign have an ASCII lower-case form. */
  function LowerChar(c: char): char {
    if 'A' <= c <= 'Z' then c - 'A' + 'a'
    else if c == '\U{0130}' then 'i'
    else if c == '\U{212A}' then 'k'
    else c
  }

  function Lower(s: string): (r: string)
    ensures |r| == |s|
    ensures forall i :: 0 <= i < |s| ==> r[i] == LowerChar(s[i])
  {
    seq(|s|, i requires 0 <= i < |s| => LowerChar(s[i]))
  }

  lemma LowerIdempotent(s: string)
    ensures Lower(Lower(s)) == Lower(s)
  {
    forall i | 0 <= i < |s| ensures Lower(Lower(s))[i] == Lower(s)[i] {
      assert LowerChar(LowerChar(s[i])) == LowerChar(s[i]);
    }
  }

  /** strings.Split with a one-character separator. */
  function Split(s: string, sep: char): (parts: seq<string>)
    ensures |parts| > 0
    ensures forall i :: 0 <= i < |parts| ==> sep !in parts[i]
  {
    if s == "" then [""]
    else if s[0] == sep then [""] + Split(s[1..], sep)
    else var rest := Split(s[1..], sep); [[s[0]] + rest[0]] + rest[1..]
  }

  /** strings.Join with a one-character separator. */
  function Join(parts: seq<string>, sep: char): string {
    if parts == [] then ""
    else if |parts| == 1 then parts[0]
    else parts[0] + [sep] + Join(parts[1..], sep)
  }

  lemma {:induction false} SplitPrefix(a: string, s: string, sep: char)
    requires sep !in a
    ensures Split(a + s, sep) == [a + Split(s, sep)[0]] + Split(s, sep)[1..]
  {
    if a == "" {
      assert a + s == s;
      assert a + Split(s, sep)[0] == Split(s, sep)[0];
    } else {
      assert (a + s)[1..] == a[1..] + s;
      SplitPrefix(a[1..], s, sep);
      assert [a[0]] + (a[1..] + Split(s, sep)[0]) == a + Split(s, sep)[0];
    }
  }

  /** Splitting undoes joining when no part contains the separator. */
  lemma {:induction false} SplitJoin(parts: seq<string>, sep: char)
    requires parts != []
    requires forall i :: 0 <= i < |parts| ==> sep !in parts[i]
    ensures Split(Join(parts, sep), sep) == parts
  {
    if |parts| == 1 {
      SplitPrefix(parts[0], "", sep);
      assert parts[0] + "" == parts[0];
      assert Split("", sep) == [""];
    } else {
      var rest := Join(parts[1..], sep);
      SplitJoin(parts[1..], sep);
      SplitPrefix(parts[0], [sep] + rest, sep);
      assert parts[0] + [sep] + rest == parts[0] + ([sep] + rest);
      assert ([sep] + rest)[1..] == rest;
      assert parts[0] + "" == parts[0];
    }
  }

  /** A text lies between separators, or the ends, of another. */
  ghost predicate Segment(s: string, part: string, sep: char, a: string, b: string) {
    && s == a + part + b && sep !in part
    && (a == "" || a[|a| - 1] == sep) && (b == "" || b[0] == sep)
  }

  /** The parts of a text are exactly what lies between its separators. */
  lemma PartIff(s: string, sep: char, part: string)
    ensures part in Split(s, sep) <==> exists a, b :: Segment(s, part, sep, a, b)
  {
    if part in Split(s, sep) {
      var i :| 0 <= i < |Split(s, sep)| && Split(s, sep)[i] == part;
      var a, b := PartAt(s, sep, i);
      assert Segment(s, part, sep, a, b);
    }
    if a, b :| Segment(s, part, sep, a, b) { SegmentIsPart(s, part, sep, a, b); }
  }

  lemma {:induction false} PartAt(s: string, sep: char, i: nat) returns (a: string, b: string)
    requires i < |Split(s, sep)|
    ensures Segment(s, Split(s, sep)[i], sep, a, b) && (i == 0 <==> a == "")
  {
    a, b := "", "";
    if s != "" {
      if s[0] == sep {
        if i == 0 {
          b := s;
        } else {
          a, b := PartAt(s[1..], sep, i - 1);
          a := [sep] + a;
        }
      } else {
        a, b := PartAt(s[1..], sep, i);
        if i > 0 { a := [s[0]] + a; }
      }
    }
  }

  lemma {:induction false} SegmentIsPart(s: string, part: string, sep: char, a: string, b: string)
    requires Segment(s, part, sep, a, b)
    ensures part in Split(s, sep) && (a != "" ==> part in Split(s, sep)[1..])
    decreases |a|
  {
    if a == "" {
      assert s == part + b;
      SplitPrefix(part, b, sep);
      assert Split(b, sep)[0] == "" && part + "" == part;
      assert Split(s, sep)[0] == part;
    } else {
      assert s[1..] == a[1..] + part + b;
      SegmentIsPart(s[1..], part, sep, a[1..], b);
      assert Split(s, sep)[1..] == if s[0] == sep then Split(s[1..], sep) else Split(s[1..], sep)[1..];
    }
  }

  /** Joining undoes splitting. */
  lemma {:induction false} JoinSplit(s: string, sep: char)
    ensures Join(Split(s, sep), sep) == s
  {
    if s != "" {
      var rest := Split(s[1..], sep);
      JoinSplit(s[1..], sep);
      if s[0] == sep {
        assert ([""] + rest)[1..] == rest;
      } else {
        var parts := [[s[0]] + rest[0]] + rest[1..];
        assert parts[1..] == rest[1..];
      }
    }
  }

  /** A join keeps the first and last character of its outer parts, and holds the
      separator exactly when there is more than one part or a part holds it. */
  lemma {:induction false} JoinShape(parts: seq<string>, sep: char)
    requires parts != [] && forall i :: 0 <= i < |parts| ==> parts[i] != ""
    ensures var j := Join(parts, sep); var last := parts[|parts| - 1];
            j != "" && j[0] == parts[0][0] && j[|j| - 1] == last[|last| - 1]
    ensures |parts| > 1 ==> sep in Join(parts, sep)
  {
    if |parts| > 1 {
      JoinShape(parts[1..], sep);
      assert Join(parts, sep)[|parts[0]|] == sep;
    }
  }

  function Digits(n: nat): (r: string)
    ensures r != "" && forall i :: 0 <= i < |r| ==> '0' <= r[i] <= '9'
  {
    if n < 10 then ['0' + n as char] else Digits(n / 10) + ['0' + (n % 10) as char]
  }

  function Itoa(n: int): string {
    if n < 0 then "-" + Digits(-n) else Digits(n)
  }

  function ParseDigits(s: string): Option<int> {
    if s == "" then None
    else
      var c := s[|s| - 1];
      if !('0' <= c <= '9') then None
      else if |s| == 1 then Some((c - '0') as int)
      else match ParseDigits(s[..|s| - 1])
        case None => None
        case Some(n) => Some(10 * n + (c - '0') as int)
  }

  /** strconv.Atoi: an optional sign and at least one digit. */
  function Atoi(s: string): Option<int> {
    if s == "" then None
    else if s[0] == '-' then
      match ParseDigits(s[1..]) case None => None case Some(n) => Some(-n)
    else if s[0] == '+' then
      match ParseDigits(s[1..]) case None => None case Some(n) => Some(n)
    else
      match ParseDigits(s) case None => None case Some(n) => Some(n)
  }

  lemma {:induction false} ParseDigitsOfDigits(n: nat)
    ensures ParseDigits(Digits(n)) == Some(n)
  {
    if n >= 10 {
      ParseDigitsOfDigits(n / 10);
      var s := Digits(n);
      assert s[..|s| - 1] == Digits(n / 10);
    }
  }

  lemma AtoiItoa(n: int)
    ensures Itoa(n) != "" && Atoi(Itoa(n)) == Some(n)
  {
    hide Digits, ParseDigits;
    if n < 0 {
      ParseDigitsOfDigits(-n);
      var s := Itoa(n);
      assert s[0] == '-' && s[1..] == Digits(-n);
      assert ParseDigits(s[1..]) == Some(-n);
    } else {
      ParseDigitsOfDigits(n);
      assert '0' <= Itoa(n)[0] <= '9';
    }
  }

  function FormatBool(b: bool): string { if b then "true" else "false" }

  function ParseBool(s: string): Option<bool> {
    if s in ["1", "t", "T", "TRUE", "true", "True"] then Some(true)
    else if s in ["0", "f", "F", "FALSE", "false", "False"] then Some(false)
    else None
  }
}
