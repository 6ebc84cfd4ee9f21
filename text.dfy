/** String helpers the bot relies on: Python's `str.split(sep)` with a
    one-character separator, `sep.join(items)`, and `str(n)` for a
    non-negative integer. */
module Text {

  /** `s.split(c)`: the pieces of `s` between occurrences of `c`, in order.
      Like Python, an empty string splits into one empty piece and two
      adjacent separators give an empty piece between them. */
  function Split(s: string, c: char): (r: seq<string>)
    ensures |r| >= 1
    ensures forall k :: 0 <= k < |r| ==> c !in r[k]
  {
    if s == [] then [[]]
    else
      var rest := Split(s[1..], c);
      if s[0] == c then [[]] + rest
      else [[s[0]] + rest[0]] + rest[1..]
  }

  /** `sep.join(items)`. */
  function Join(items: seq<string>, sep: string): string
  {
    if |items| == 0 then []
    else if |items| == 1 then items[0]
    else items[0] + sep + Join(items[1..], sep)
  }

  /** Joining grows at the end: how a loop that appends one item at a time
      builds the joined string. */
  lemma {:induction false} JoinSnoc(items: seq<string>, x: string, sep: string)
    requires |items| >= 1
    ensures Join(items + [x], sep) == Join(items, sep) + sep + x
  {
    if |items| == 1 {
      assert (items + [x])[1..] == [x];
    } else {
      assert (items + [x])[1..] == items[1..] + [x];
      JoinSnoc(items[1..], x, sep);
    }
  }

  /** Splitting a piece that has no separator, followed by the separator,
      peels that piece off the front. */
  lemma {:induction false} SplitPrefix(k: string, c: char, rest: string)
    requires c !in k
    ensures Split(k + [c] + rest, c) == [k] + Split(rest, c)
  {
    if k != [] {
      assert (k + [c] + rest)[1..] == k[1..] + [c] + rest;
      SplitPrefix(k[1..], c, rest);
      assert k[0] != c;
      assert [k[0]] + k[1..] == k;
    } else {
      assert k + [c] + rest == [c] + rest;
      assert ([c] + rest)[1..] == rest;
    }
  }

  /** A string without the separator splits into itself. */
  lemma {:induction false} SplitNone(k: string, c: char)
    requires c !in k
    ensures Split(k, c) == [k]
  {
    if k != [] {
      SplitNone(k[1..], c);
      assert k[0] != c;
      assert [k[0]] + k[1..] == k;
    }
  }

  /** Joining the pieces with the separator gives back the string. */
  lemma {:induction false} JoinSplit(s: string, c: char)
    ensures Join(Split(s, c), [c]) == s
  {
    if s != [] {
      JoinSplit(s[1..], c);
      var rest := Split(s[1..], c);
      if s[0] == c {
        assert Split(s, c) == [[]] + rest;
        assert ([[]] + rest)[1..] == rest;
      } else {
        var r := Split(s, c);
        assert r == [[s[0]] + rest[0]] + rest[1..];
        if |rest| > 1 {
          assert r[1..] == rest[1..];
          assert Join(rest, [c]) == rest[0] + [c] + Join(rest[1..], [c]);
        }
      }
    }
  }

  /** Splitting a joined path gives back its keys when no key holds the
      separator. */
  lemma {:induction false} SplitJoin(keys: seq<string>, c: char)
    requires |keys| >= 1
    requires forall k :: 0 <= k < |keys| ==> c !in keys[k]
    ensures Split(Join(keys, [c]), c) == keys
  {
    if |keys| == 1 {
      SplitNone(keys[0], c);
    } else {
      SplitJoin(keys[1..], c);
      SplitPrefix(keys[0], c, Join(keys[1..], [c]));
      assert keys == [keys[0]] + keys[1..];
    }
  }

  /** The decimal digit character for `d`. */
  function DigitChar(d: nat): char
    requires d < 10
  {
    "0123456789"[d]
  }

  function DigitValue(ch: char): nat
  {
    if '0' <= ch <= '9' then (ch - '0') as nat else 0
  }

  /** `str(n)` for a non-negative integer. */
  function Decimal(n: nat): (s: string)
    ensures |s| >= 1
    ensures forall k :: 0 <= k < |s| ==> '0' <= s[k] <= '9'
    ensures s[0] == '0' ==> n == 0
  {
    if n < 10 then [DigitChar(n)] else Decimal(n / 10) + [DigitChar(n % 10)]
  }

  /** `int(s)` for a string of decimal digits. */
  function ParseDecimal(s: string): nat
  {
    if s == [] then 0 else ParseDecimal(s[..|s| - 1]) * 10 + DigitValue(s[|s| - 1])
  }

  lemma DigitRoundTrip(d: nat)
    requires d < 10
    ensures DigitValue(DigitChar(d)) == d
  {
  }

  /** Reading back the decimal rendering gives the number. */
  lemma {:induction false} DecimalRoundTrip(n: nat)
    ensures ParseDecimal(Decimal(n)) == n
  {
    if n < 10 {
      DigitRoundTrip(n);
      assert Decimal(n)[..0] == [];
    } else {
      var q, d := n / 10, n % 10;
      DecimalRoundTrip(q);
      DigitRoundTrip(d);
      var s := Decimal(n);
      assert s == Decimal(q) + [DigitChar(d)];
      assert s[..|s| - 1] == Decimal(q);
      assert ParseDecimal(s) == q * 10 + d;
    }
  }
}
