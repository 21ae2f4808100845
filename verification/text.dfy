/** Strings as `seq<char>`: ASCII lower-casing, substring search and the
    email shape accepted by the schemas. */
module Text {
  import opened Wrappers

  /** ASCII lower-casing of one character. */
  function LowerChar(c: char): char {
    if 'A' <= c <= 'Z' then (c as int - 'A' as int + 'a' as int) as char else c
  }

  /** `String.prototype.toLowerCase`, restricted to ASCII letters. */
  function ToLower(s: string): (r: string)
    ensures |r| == |s|
    ensures forall i :: 0 <= i < |s| ==> r[i] == LowerChar(s[i])
  {
    if |s| == 0 then "" else [LowerChar(s[0])] + ToLower(s[1..])
  }

  lemma ToLowerIdempotent(s: string)
    ensures ToLower(ToLower(s)) == ToLower(s)
  {
  }

  /** `hay.includes(needle)`: `needle` occurs in `hay` at some offset. */
  predicate Contains(hay: string, needle: string)
    decreases |hay|
  {
    needle <= hay || (|hay| > 0 && Contains(hay[1..], needle))
  }

  /** A needle as long as the haystack occurs in it only when the two are
      equal. */
  lemma {:induction false} ContainsSameLength(hay: string, needle: string)
    requires |needle| == |hay|
    ensures Contains(hay, needle) <==> needle == hay
  {
    if |hay| > 0 && Contains(hay[1..], needle) {
      NoLongerNeedle(hay[1..], needle);
    }
  }

  /** A needle longer than the haystack never occurs in it. */
  lemma {:induction false} NoLongerNeedle(hay: string, needle: string)
    requires |needle| > |hay|
    ensures !Contains(hay, needle)
    decreases |hay|
  {
    if |hay| > 0 {
      NoLongerNeedle(hay[1..], needle);
    }
  }

  /** `hay.toLowerCase().includes(needle.toLowerCase())`. */
  predicate ContainsIgnoreCase(hay: string, needle: string) {
    Contains(ToLower(hay), ToLower(needle))
  }

  /** Two strings of one length that differ, ignoring case, at some place
      do not contain each other ignoring case. */
  lemma DifferentIgnoringCase(hay: string, needle: string, i: nat)
    requires |needle| == |hay| && i < |hay| && LowerChar(hay[i]) != LowerChar(needle[i])
    ensures !ContainsIgnoreCase(hay, needle)
  {
    ContainsSameLength(ToLower(hay), ToLower(needle));
    assert ToLower(hay)[i] != ToLower(needle)[i];
  }

  /** A case-insensitive search gives the same answer whatever the case of
      the search term. */
  lemma ContainsIgnoreCaseOfLowered(hay: string, needle: string)
    ensures ContainsIgnoreCase(hay, ToLower(needle)) == ContainsIgnoreCase(hay, needle)
  {
    ToLowerIdempotent(needle);
  }

  /** The empty search term occurs in every string. */
  lemma EmptyTermOccurs(hay: string)
    ensures Contains(hay, "") && ContainsIgnoreCase(hay, "")
  {
  }

  /** Lower-casing keeps an occurrence: a case-insensitive search finds every
      exact occurrence of the term. */
  lemma {:induction false} ContainsLowered(hay: string, needle: string)
    requires Contains(hay, needle)
    ensures ContainsIgnoreCase(hay, needle)
  {
    if needle <= hay {
      ToLowerPrefix(needle, hay);
    } else {
      ContainsLowered(hay[1..], needle);
      assert ToLower(hay)[1..] == ToLower(hay[1..]);
    }
  }

  lemma ToLowerPrefix(p: string, s: string)
    requires p <= s
    ensures ToLower(p) <= ToLower(s)
  {
  }

  /** JavaScript's `.length`: the number of UTF-16 code units, so a
      character outside the Basic Multilingual Plane counts twice. */
  function Utf16Length(s: string): (n: nat)
    ensures |s| <= n <= 2 * |s|
    ensures n == |s| <==> forall i :: 0 <= i < |s| ==> s[i] as int < 0x1_0000
  {
    if |s| == 0 then 0
    else
      var rest := Utf16Length(s[1..]);
      assert forall i :: 1 <= i < |s| ==> s[i] == s[1..][i - 1];
      (if s[0] as int < 0x1_0000 then 1 else 2) + rest
  }

  /** Code units add up over concatenation. */
  lemma {:induction false} Utf16LengthConcat(a: string, b: string)
    ensures Utf16Length(a + b) == Utf16Length(a) + Utf16Length(b)
  {
    if |a| == 0 {
      assert a + b == b;
    } else {
      assert (a + b)[0] == a[0];
      assert (a + b)[1..] == a[1..] + b;
      Utf16LengthConcat(a[1..], b);
    }
  }

  /** An approximation of the schema library's email check: exactly one `@`,
      with something on either side, and no blanks. */
  predicate ValidEmail(e: string) {
    && ' ' !in e
    && exists i :: 0 < i < |e| - 1 && e[i] == '@' && '@' !in e[..i] && '@' !in e[i + 1..]
  }

  /** `z.string().email().optional().or(z.literal(""))`: absent, the empty
      string, or a well-formed address. */
  predicate AcceptableEmail(e: Option<string>) {
    e.None? || e.value == "" || ValidEmail(e.value)
  }

  /** A string occurs in any string that has it as a middle part. */
  lemma {:induction false} ContainsMiddle(a: string, n: string, c: string)
    ensures Contains(a + n + c, n)
  {
    if |a| > 0 {
      assert (a + n + c)[1..] == a[1..] + n + c;
      ContainsMiddle(a[1..], n, c);
    } else {
      assert a + n + c == n + c;
    }
  }

  /** Text in the tail of a string is text in the string. */
  lemma {:induction false} ContainsInSuffix(a: string, b: string, n: string)
    requires Contains(b, n)
    ensures Contains(a + b, n)
  {
    if |a| > 0 {
      assert (a + b)[1..] == a[1..] + b;
      ContainsInSuffix(a[1..], b, n);
    } else {
      assert a + b == b;
    }
  }

  /** Lines joined with `\n` between them, as a multi-line template literal. */
  function JoinLines(lines: seq<string>): string {
    if |lines| == 0 then ""
    else if |lines| == 1 then lines[0]
    else lines[0] + "\n" + JoinLines(lines[1..])
  }

  /** Every line other than the first and last occurs with a line break on
      either side. */
  lemma {:induction false} InnerLineOccurs(lines: seq<string>, i: nat)
    requires 0 < i < |lines| - 1
    ensures Contains(JoinLines(lines), "\n" + lines[i] + "\n")
  {
    var rest := lines[1..];
    if i == 1 {
      assert JoinLines(rest) == lines[1] + "\n" + JoinLines(rest[1..]);
      assert JoinLines(lines) == lines[0] + ("\n" + lines[1] + "\n") + JoinLines(rest[1..]);
      ContainsMiddle(lines[0], "\n" + lines[1] + "\n", JoinLines(rest[1..]));
    } else {
      InnerLineOccurs(rest, i - 1);
      assert rest[i - 1] == lines[i];
      ContainsInSuffix(lines[0] + "\n", JoinLines(rest), "\n" + lines[i] + "\n");
    }
  }
}
