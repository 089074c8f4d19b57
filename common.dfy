/** Values, outcomes and string helpers shared by the whole model.

    The application is JavaScript: a missing field, `null`, `undefined` and
    the empty string are all "falsy". The model writes an optional value as
    `Option`, and an optional text field as a `string` whose empty value
    stands for every falsy case. */
module Common {

  datatype Option<+T> = None | Some(value: T)

  /** What a middleware or a guard decides: hand over to the next handler,
      or answer the request with a status code and an error message. */
  datatype Decision = Next | Reject(status: nat, error: string)

  /** What a route answers: a value to act on or send, or an error status
      with its message. */
  datatype Outcome<T> = Ok(value: T) | Fail(status: nat, error: string)

  /** The identity a verified token carries and that handlers read as
      `req.user`: exactly the id, user name and role. */
  datatype User = User(id: nat, username: string, role: string)

  const ADMIN: string := "ADMIN"
  const MANAGER: string := "MANAGER"

  /** Milliseconds in one hour; timestamps are integer milliseconds. */
  const HOUR_MS: int := 3600000

  /** `(now - createdAt) / 3600000 <= hours`, the time-window test of the
      routes and of the dashboard, on integer milliseconds. */
  predicate WithinHours(createdAt: int, now: int, hours: nat)
  {
    now - createdAt <= hours * HOUR_MS
  }

  /** The characters `String.prototype.trim` removes: ECMAScript
      WhiteSpace and LineTerminator. */
  predicate IsJsWhitespace(c: char)
  {
    var n := c as int;
    (0x09 <= n <= 0x0D) || n == 0x20 || n == 0xA0 || n == 0x1680
    || (0x2000 <= n <= 0x200A) || n == 0x2028 || n == 0x2029 || n == 0x202F
    || n == 0x205F || n == 0x3000 || n == 0xFEFF
  }

  predicate AllWhitespace(s: string)
  {
    forall i :: 0 <= i < |s| ==> IsJsWhitespace(s[i])
  }

  /** `s` without its leading whitespace. */
  function TrimStart(s: string): (r: string)
    ensures |r| <= |s| && r == s[|s| - |r|..]
    ensures AllWhitespace(s[..|s| - |r|])
    ensures r == [] || !IsJsWhitespace(r[0])
  {
    if s != [] && IsJsWhitespace(s[0]) then
      var r := TrimStart(s[1..]);
      assert s[1..][..|s| - 1 - |r|] == s[1..|s| - |r|];
      r
    else s
  }

  /** `s` without its trailing whitespace. */
  function TrimEnd(s: string): (r: string)
    ensures |r| <= |s| && r == s[..|r|]
    ensures AllWhitespace(s[|r|..])
    ensures r == [] || !IsJsWhitespace(r[|r| - 1])
  {
    if s != [] && IsJsWhitespace(s[|s| - 1]) then
      var init := s[..|s| - 1];
      var r := TrimEnd(init);
      assert init[..|r|] == s[..|r|];
      assert s[|r|..] == init[|r|..] + [s[|s| - 1]];
      r
    else s
  }

  /** `String.prototype.trim`. */
  function Trim(s: string): string
  {
    TrimEnd(TrimStart(s))
  }

  /** Trimming leaves the empty string exactly when `s` is all whitespace. */
  lemma TrimEmptyIff(s: string)
    ensures Trim(s) == "" <==> AllWhitespace(s)
  {
    var a := TrimStart(s);
    assert s == s[..|s| - |a|] + a;
    if Trim(s) == "" {
      assert a == [] by {
        assert a[|TrimEnd(a)|..] == a;
      }
      assert s[..|s|] == s;
    }
  }

  /** Lower-case of the ASCII letters, identity elsewhere. */
  function LowerChar(c: char): char
  {
    if 'A' <= c <= 'Z' then (c as int + 32) as char else c
  }

  function ToLower(s: string): (r: string)
    ensures |r| == |s| && forall i :: 0 <= i < |s| ==> r[i] == LowerChar(s[i])
  {
    if s == [] then [] else [LowerChar(s[0])] + ToLower(s[1..])
  }

  predicate StartsWith(s: string, prefix: string)
  {
    |prefix| <= |s| && s[..|prefix|] == prefix
  }

  /** `s.includes(sub)`. */
  predicate Contains(s: string, sub: string)
  {
    exists i :: 0 <= i <= |s| - |sub| && OccursAt(s, sub, i)
  }

  /** `sub` stands in `s` from position `i` on. */
  predicate OccursAt(s: string, sub: string, i: int)
  {
    0 <= i <= |s| - |sub| && s[i..i + |sub|] == sub
  }

  /** Case-insensitive substring test. */
  predicate ContainsIgnoreCase(s: string, sub: string)
  {
    Contains(ToLower(s), ToLower(sub))
  }

  /** Code-point lexicographic order on strings, strict. */
  predicate Below(a: string, b: string)
  {
    b != [] && (a == [] || a[0] < b[0] || (a[0] == b[0] && Below(a[1..], b[1..])))
  }

  lemma {:induction false} BelowIrreflexive(a: string)
    ensures !Below(a, a)
  {
    if a != [] { BelowIrreflexive(a[1..]); }
  }

  lemma {:induction false} BelowTransitive(a: string, b: string, c: string)
    requires Below(a, b) && Below(b, c)
    ensures Below(a, c)
  {
    if a != [] && a[0] == b[0] && b[0] == c[0] {
      BelowTransitive(a[1..], b[1..], c[1..]);
    }
  }

  lemma {:induction false} BelowTotal(a: string, b: string)
    ensures a == b || Below(a, b) || Below(b, a)
  {
    if a != [] && b != [] && a[0] == b[0] {
      BelowTotal(a[1..], b[1..]);
      if a[1..] == b[1..] { assert a == [a[0]] + a[1..] && b == [b[0]] + b[1..]; }
    }
  }

  /** Each string comes before every later one: sorted, without repeats. */
  predicate StrictlyAscending(s: seq<string>)
  {
    forall i, j :: 0 <= i < j < |s| ==> Below(s[i], s[j])
  }

  /** `parts` joined with `sep` between consecutive parts. */
  function Join(parts: seq<string>, sep: char): string
  {
    if parts == [] then ""
    else if |parts| == 1 then parts[0]
    else parts[0] + [sep] + Join(parts[1..], sep)
  }

  /** `s.split(sep)` for a one-character separator: the maximal runs between
      separators, empty runs included. */
  function Split(s: string, sep: char): (r: seq<string>)
    ensures |r| >= 1
    ensures forall k :: 0 <= k < |r| ==> sep !in r[k]
    ensures Join(r, sep) == s
  {
    if s == [] then [""]
    else if s[0] == sep then
      var rest := Split(s[1..], sep);
      assert s == [] + [sep] + s[1..];
      [""] + rest
    else
      var rest := Split(s[1..], sep);
      var r := [[s[0]] + rest[0]] + rest[1..];
      assert r[1..] == rest[1..];
      assert s == [s[0]] + s[1..];
      r
  }

  /** Splitting after a separator-free prefix: the prefix is the first part. */
  lemma {:induction false} SplitAfterPrefix(a: string, sep: char, t: string)
    requires sep !in a
    ensures Split(a + [sep] + t, sep) == [a] + Split(t, sep)
  {
    if a == [] {
      assert [] + [sep] + t == [sep] + t;
      assert ([sep] + t)[1..] == t;
    } else {
      var s := a + [sep] + t;
      assert s[0] == a[0] && s[0] != sep && s[1..] == a[1..] + [sep] + t by {
        assert a[0] in a;
      }
      var rest := Split(s[1..], sep);
      assert rest == [a[1..]] + Split(t, sep) by {
        SplitAfterPrefix(a[1..], sep, t);
      }
      assert Split(s, sep) == [[a[0]] + rest[0]] + rest[1..];
      assert [a[0]] + a[1..] == a;
    }
  }

  /** A string without the separator is its own single part. */
  lemma {:induction false} SplitWithoutSeparator(s: string, sep: char)
    ensures sep !in s ==> Split(s, sep) == [s]
  {
    if s != [] && sep !in s {
      SplitWithoutSeparator(s[1..], sep);
      assert [s[0]] + s[1..] == s;
    }
  }

  /** Splitting undoes joining when no part holds the separator. */
  lemma {:induction false} SplitJoin(parts: seq<string>, sep: char)
    requires |parts| >= 1 && forall k :: 0 <= k < |parts| ==> sep !in parts[k]
    ensures Split(Join(parts, sep), sep) == parts
  {
    if |parts| == 1 {
      SplitWithoutSeparator(parts[0], sep);
    } else {
      SplitJoin(parts[1..], sep);
      SplitAfterPrefix(parts[0], sep, Join(parts[1..], sep));
      assert [parts[0]] + parts[1..] == parts;
    }
  }

  /** The decimal digit for `d`. */
  function DigitChar(d: nat): (c: char)
    requires d < 10
    ensures '0' <= c <= '9' && c as int - '0' as int == d
  {
    ('0' as int + d) as char
  }

  predicate AllDigits(s: string)
  {
    forall k :: 0 <= k < |s| ==> '0' <= s[k] <= '9'
  }

  /** `String(n)` for a natural number: its decimal digits. */
  function Decimal(n: nat): (r: string)
    ensures r != [] && AllDigits(r)
  {
    if n < 10 then [DigitChar(n)] else Decimal(n / 10) + [DigitChar(n % 10)]
  }

  /** `String(n)` for any integer. */
  function IntText(n: int): (r: string)
    ensures r != []
    ensures n >= 0 ==> r == Decimal(n)
  {
    if n < 0 then "-" + Decimal(-n) else Decimal(n)
  }

  /** The number a string of decimal digits denotes. */
  function DecimalValue(s: string): nat
    requires AllDigits(s)
  {
    if s == [] then 0
    else DecimalValue(s[..|s| - 1]) * 10 + (s[|s| - 1] as int - '0' as int)
  }

  /** Reading back a written number gives the number. */
  lemma {:induction false} DecimalRoundTrip(n: nat)
    ensures DecimalValue(Decimal(n)) == n
  {
    if n >= 10 {
      DecimalRoundTrip(n / 10);
      var r := Decimal(n);
      assert r[..|r| - 1] == Decimal(n / 10);
    }
  }

  /** A number below 100 written with two digits, `padStart(2, '0')`. */
  function Pad2(n: nat): (r: string)
    requires n < 100
    ensures |r| == 2 && AllDigits(r) && DecimalValue(r) == n
  {
    var r := [DigitChar(n / 10), DigitChar(n % 10)];
    assert r[..1] == [DigitChar(n / 10)] && r[..1][..0] == [];
    assert DecimalValue(r[..1]) == n / 10;
    assert DecimalValue(r) == DecimalValue(r[..1]) * 10 + n % 10;
    r
  }

  /** `${year}-${month}-${day}` with month and day padded to two digits. */
  function DateText(year: nat, month: nat, day: nat): string
    requires month < 100 && day < 100
  {
    Decimal(year) + "-" + Pad2(month) + "-" + Pad2(day)
  }
  /** `URLSearchParams`: the (name, value) pairs appended, in order. */
  type Params = seq<(string, string)>

  /** The pairs whose value is non-empty, in order: the effect of a run of
      `if (value) params.append(name, value)`. */
  function PresentParams(pairs: Params): (r: Params)
    ensures |r| <= |pairs|
    ensures forall k :: 0 <= k < |r| ==> r[k].1 != ""
  {
    if pairs == [] then []
    else
      var rest := PresentParams(pairs[1..]);
      if pairs[0].1 != "" then [pairs[0]] + rest else rest
  }

  /** `params.get(name)` as the server reads it: the first value under
      `name`, or the empty (absent) text. */
  function ParamValue(params: Params, name: string): string
  {
    if params == [] then ""
    else if params[0].0 == name then params[0].1
    else ParamValue(params[1..], name)
  }

  predicate DistinctNames(pairs: Params)
  {
    forall i, j :: 0 <= i < j < |pairs| ==> pairs[i].0 != pairs[j].0
  }

  /** Skipping the empty values loses nothing: under distinct names the
      server reads back each value the page meant, an empty one as absent. */
  lemma {:induction false} PresentParamsDelivered(pairs: Params, k: nat)
    requires DistinctNames(pairs) && k < |pairs|
    ensures ParamValue(PresentParams(pairs), pairs[k].0) == pairs[k].1
  {
    var rest := pairs[1..];
    assert DistinctNames(rest) by {
      forall i, j | 0 <= i < j < |rest| ensures rest[i].0 != rest[j].0 {
        assert rest[i] == pairs[i + 1] && rest[j] == pairs[j + 1];
      }
    }
    if k == 0 {
      if pairs[0].1 == "" {
        NameAbsent(rest, pairs[0].0);
      }
    } else {
      PresentParamsDelivered(rest, k - 1);
      assert rest[k - 1] == pairs[k];
    }
  }

  /** No pair is sent exactly when every value is empty. */
  lemma {:induction false} PresentParamsEmpty(pairs: Params)
    ensures PresentParams(pairs) == [] <==> forall k :: 0 <= k < |pairs| ==> pairs[k].1 == ""
  {
    if pairs != [] {
      PresentParamsEmpty(pairs[1..]);
      assert forall k :: 1 <= k < |pairs| ==> pairs[k] == pairs[1..][k - 1];
    }
  }

  /** A name that no pair carries reads as absent. */
  lemma {:induction false} NameAbsent(pairs: Params, name: string)
    requires forall k :: 0 <= k < |pairs| ==> pairs[k].0 != name
    ensures ParamValue(PresentParams(pairs), name) == ""
  {
    if pairs != [] {
      NameAbsent(pairs[1..], name);
    }
  }

  /** Appending one more pair appends it when its value is non-empty. */
  lemma {:induction false} PresentParamsSnoc(pairs: Params, x: (string, string))
    ensures PresentParams(pairs + [x]) == PresentParams(pairs) + (if x.1 != "" then [x] else [])
  {
    if pairs != [] {
      PresentParamsSnoc(pairs[1..], x);
      assert (pairs + [x])[1..] == pairs[1..] + [x];
    }
  }

  /** One `if (value) params.append(name, value)` step, after the steps
      for the pairs `done`. */
  method AppendIfPresent(ghost done: Params, params: Params, name: string, value: string)
    returns (params': Params)
    requires params == PresentParams(done)
    ensures params' == PresentParams(done + [(name, value)])
  {
    PresentParamsSnoc(done, (name, value));
    params' := params;
    if value != "" {
      params' := params' + [(name, value)];
    }
  }

  /** `params.toString()`, without percent-encoding: `name=value` pairs
      joined with `&`. */
  function QueryString(params: Params): (r: string)
    ensures r == "" <==> params == []
  {
    if params == [] then ""
    else
      var first := params[0].0 + "=" + params[0].1;
      assert first[|params[0].0|] == '=';
      if |params| == 1 then first else first + "&" + QueryString(params[1..])
  }
}
