/**
 * String operations the client relies on: Python's substring test, splitting
 * and joining on a separator, and the decimal rendering of integers used by
 * `str.format`, each with its inverse or an independent characterisation.
 */
module Text {
  import opened Values

  predicate HasPrefix(s: string, p: string)
  {
    |p| <= |s| && s[..|p|] == p
  }

  /** Python's `needle in hay` on strings: a substring test, not a prefix test. */
  predicate Contains(hay: string, needle: string)
    decreases |hay|
  {
    HasPrefix(hay, needle) || (|hay| > 0 && Contains(hay[1..], needle))
  }

  /** The needle occurs in the haystack at offset `i`. */
  predicate OccursAt(hay: string, needle: string, i: int)
  {
    0 <= i <= |hay| - |needle| && hay[i..i + |needle|] == needle
  }

  /** `Contains` holds exactly when the needle occurs at some offset of the haystack. */
  lemma {:induction false} ContainsAt(hay: string, needle: string)
    ensures Contains(hay, needle) <==> exists i :: OccursAt(hay, needle, i)
    decreases |hay|
  {
    if HasPrefix(hay, needle) {
      assert OccursAt(hay, needle, 0);
    } else if |hay| == 0 {
      assert needle != [];
    } else {
      var tail := hay[1..];
      ContainsAt(tail, needle);
      if Contains(tail, needle) {
        var j :| OccursAt(tail, needle, j);
        assert hay[j + 1..j + 1 + |needle|] == tail[j..j + |needle|];
        assert OccursAt(hay, needle, j + 1);
      }
      if exists i :: OccursAt(hay, needle, i) {
        var i :| OccursAt(hay, needle, i);
        if i > 0 {
          assert tail[i - 1..i - 1 + |needle|] == hay[i..i + |needle|];
          assert OccursAt(tail, needle, i - 1);
        }
      }
    }
  }

  /** A string always contains each of its prefixes. */
  lemma ContainsPrefix(p: string, rest: string)
    ensures Contains(p + rest, p)
  {
    assert (p + rest)[..|p|] == p;
  }

  /** A string contains any string it has in the middle. */
  lemma ContainsInfix(front: string, needle: string, back: string)
    ensures Contains(front + needle + back, needle)
  {
    var hay := front + needle + back;
    assert hay[|front|..|front| + |needle|] == needle;
    assert OccursAt(hay, needle, |front|);
    ContainsAt(hay, needle);
  }

  // ---------------------------------------------------------------------------
  // Splitting and joining on a separator character

  /** Python's `s.split(sep)`: always at least one field. */
  function Split(s: string, sep: char): (fields: seq<string>)
    ensures |fields| >= 1
  {
    if s == [] then [[]]
    else
      var rest := Split(s[1..], sep);
      if s[0] == sep then [[]] + rest else [[s[0]] + rest[0]] + rest[1..]
  }

  /** Python's `sep.join(fields)` for a non-empty list of fields. */
  function Join(fields: seq<string>, sep: char): string
    requires |fields| >= 1
  {
    if |fields| == 1 then fields[0] else fields[0] + [sep] + Join(fields[1..], sep)
  }

  predicate NoSep(fields: seq<string>, sep: char)
  {
    forall k :: 0 <= k < |fields| ==> sep !in fields[k]
  }

  lemma {:induction false} SplitNoSep(s: string, sep: char)
    requires sep !in s
    ensures Split(s, sep) == [s]
    decreases |s|
  {
    if s != [] {
      SplitNoSep(s[1..], sep);
      assert [s[0]] + s[1..] == s;
    }
  }

  /** Splitting `a + sep + b`, where `a` holds no separator, peels off `a`. */
  lemma {:induction false} SplitCons(a: string, b: string, sep: char)
    requires sep !in a
    ensures Split(a + [sep] + b, sep) == [a] + Split(b, sep)
    decreases |a|
  {
    var s := a + [sep] + b;
    if a == [] {
      assert s[0] == sep && s[1..] == b;
    } else {
      assert s[0] == a[0];
      assert s[1..] == a[1..] + [sep] + b;
      SplitCons(a[1..], b, sep);
      assert [a[0]] + a[1..] == a;
    }
  }

  /** Splitting undoes joining when no field holds the separator. */
  lemma {:induction false} SplitJoin(fields: seq<string>, sep: char)
    requires |fields| >= 1 && NoSep(fields, sep)
    ensures Split(Join(fields, sep), sep) == fields
    decreases |fields|
  {
    if |fields| == 1 {
      SplitNoSep(fields[0], sep);
    } else {
      SplitJoin(fields[1..], sep);
      SplitCons(fields[0], Join(fields[1..], sep), sep);
      assert [fields[0]] + fields[1..] == fields;
    }
  }

  /** Joining one more field adds one separator and the field at the end. */
  lemma {:induction false} JoinAppend(fields: seq<string>, x: string, sep: char)
    requires |fields| >= 1
    ensures Join(fields + [x], sep) == Join(fields, sep) + [sep] + x
    decreases |fields|
  {
    if |fields| == 1 {
      assert (fields + [x])[1..] == [x];
    } else {
      assert (fields + [x])[1..] == fields[1..] + [x];
      JoinAppend(fields[1..], x, sep);
    }
  }

  /** Each field preceded by the separator, concatenated. */
  function Prefixed(fields: seq<string>, sep: char): string
  {
    if fields == [] then [] else [sep] + fields[0] + Prefixed(fields[1..], sep)
  }

  /** Joining more fields onto a joined prefix adds each one after a separator. */
  lemma {:induction false} JoinPrefixed(prefix: seq<string>, more: seq<string>, sep: char)
    requires |prefix| >= 1
    ensures Join(prefix + more, sep) == Join(prefix, sep) + Prefixed(more, sep)
    decreases |more|
  {
    if more == [] {
      assert prefix + more == prefix;
    } else {
      var x, rest := more[0], more[1..];
      assert prefix + more == (prefix + [x]) + rest;
      JoinPrefixed(prefix + [x], rest, sep);
      JoinAppend(prefix, x, sep);
      ConcatAssoc(Join(prefix, sep), [sep] + x, Prefixed(rest, sep));
    }
  }

  lemma ConcatAssoc(a: string, b: string, c: string)
    ensures a + b + c == a + (b + c)
  {
  }

  // ---------------------------------------------------------------------------
  // Decimal rendering of integers (Python's `str(int)`, used by `str.format`)

  predicate IsDigit(c: char)
  {
    '0' <= c <= '9'
  }

  predicate AllDigits(s: string)
  {
    forall k :: 0 <= k < |s| ==> IsDigit(s[k])
  }

  function DigitChar(d: nat): (c: char)
    requires d < 10
    ensures IsDigit(c) && c as int - '0' as int == d
  {
    ('0' as int + d) as char
  }

  function NatToDecimal(n: nat): (s: string)
    ensures |s| >= 1 && AllDigits(s)
    decreases n
  {
    if n < 10 then [DigitChar(n)] else NatToDecimal(n / 10) + [DigitChar(n % 10)]
  }

  /** Python's `str(i)`: a minus sign for negative numbers, then the digits. */
  function IntToDecimal(i: int): string
  {
    if i < 0 then "-" + NatToDecimal(-i) else NatToDecimal(i)
  }

  /** The value of a non-empty string of decimal digits, read left to right. */
  function DigitsValue(s: string): nat
    requires |s| >= 1 && AllDigits(s)
    decreases |s|
  {
    var last := (s[|s| - 1] as int - '0' as int) as nat;
    if |s| == 1 then last else DigitsValue(s[..|s| - 1]) * 10 + last
  }

  /** Python's `int(s)` restricted to an optional minus sign followed by digits. */
  function ParseInt(s: string): Option<int>
  {
    if |s| >= 2 && s[0] == '-' && AllDigits(s[1..]) then Some(0 - DigitsValue(s[1..]))
    else if |s| >= 1 && AllDigits(s) then Some(DigitsValue(s))
    else None
  }

  lemma {:induction false} NatToDecimalValue(n: nat)
    ensures DigitsValue(NatToDecimal(n)) == n
    decreases n
  {
    if n >= 10 {
      var s := NatToDecimal(n);
      NatToDecimalValue(n / 10);
      assert s[..|s| - 1] == NatToDecimal(n / 10);
    }
  }

  /** Reading back the rendering of any integer gives that integer. */
  lemma IntToDecimalRoundTrip(i: int)
    ensures ParseInt(IntToDecimal(i)) == Some(i)
  {
    if i < 0 {
      var s := IntToDecimal(i);
      assert s[1..] == NatToDecimal(-i);
      NatToDecimalValue(-i);
    } else {
      NatToDecimalValue(i);
    }
  }

  lemma IntToDecimalAlphabet(i: int)
    ensures forall k :: 0 <= k < |IntToDecimal(i)| ==>
              IsDigit(IntToDecimal(i)[k]) || IntToDecimal(i)[k] == '-'
  {
  }
}
