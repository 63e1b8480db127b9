/** Vocabulary shared by the whole model: the Python exceptions that abort
    pipeline configuration, as values; the few string operations of Python
    the builders rely on; and the argument helpers of the job framework. */
module Common {

  datatype Option<+T> = None | Some(value: T)

  /** A Python exception raised while the task graph is being configured.
      Any of them aborts the construction of the whole pipeline. */
  datatype Error =
    | KeyError(key: string)
    | ValueError(message: string)
    | AttributeError(attribute: string)
    | IndexError
    | NameError(name: string)
    | TypeError(message: string)

  /** The outcome of a configuration step: a value, or the exception it raised. */
  datatype Result<+T> = Ok(value: T) | Err(error: Error) {
    predicate IsFailure() { Err? }

    function PropagateFailure<U>(): Result<U>
      requires Err?
    {
      Err(error)
    }

    function Extract(): T
      requires Ok?
    {
      value
    }
  }

  /** File-system paths are plain strings; nothing here normalises them. */
  type Path = string

  /** Python truthiness of an optional string: set and non-empty. */
  predicate Truthy(o: Option<string>) {
    o.Some? && o.value != ""
  }

  /** Python's `s.startswith(prefix)`. */
  predicate StartsWith(s: string, prefix: string) {
    |prefix| <= |s| && s[..|prefix|] == prefix
  }

  /** Python's `s.endswith(suffix)`. */
  predicate EndsWith(s: string, suffix: string) {
    |suffix| <= |s| && s[|s| - |suffix|..] == suffix
  }

  /** `part` occurs in `s` at index `k`. */
  predicate OccursAt(s: string, part: string, k: nat) {
    k + |part| <= |s| && s[k..k + |part|] == part
  }

  /** Python's `part in s`. */
  ghost predicate Contains(s: string, part: string) {
    exists k: nat :: OccursAt(s, part, k)
  }

  lemma EndsWithConcat(a: string, b: string)
    ensures EndsWith(a + b, b)
  {
    assert (a + b)[|a + b| - |b|..] == b;
  }

  lemma StartsWithConcat(a: string, b: string)
    ensures StartsWith(a + b, a)
  {
    assert (a + b)[..|a|] == a;
  }

  /** The middle part of a concatenation occurs in it. */
  lemma ContainsMiddle(a: string, b: string, c: string)
    ensures Contains(a + b + c, b)
  {
    assert (a + b + c)[|a|..|a| + |b|] == b;
    assert OccursAt(a + b + c, b, |a|);
  }

  /** What occurs in the head occurs in the whole. */
  lemma ContainsExtend(a: string, b: string, part: string)
    requires Contains(a, part)
    ensures Contains(a + b, part)
  {
    var k: nat :| OccursAt(a, part, k);
    assert (a + b)[k..k + |part|] == a[k..k + |part|];
    assert OccursAt(a + b, part, k);
  }

  /** A suffix of the tail is a suffix of the whole. */
  lemma EndsWithExtend(a: string, b: string, suffix: string)
    requires EndsWith(b, suffix)
    ensures EndsWith(a + b, suffix)
  {
    assert (a + b)[|a + b| - |suffix|..] == b[|b| - |suffix|..];
  }

  /** A prefix of the head is a prefix of the whole. */
  lemma StartsWithExtend(a: string, b: string, prefix: string)
    requires StartsWith(a, prefix)
    ensures StartsWith(a + b, prefix)
  {
    assert (a + b)[..|prefix|] == a[..|prefix|];
  }

  lemma Assoc3<T>(a: seq<T>, b: seq<T>, c: seq<T>)
    ensures a + b + c == a + (b + c)
  {
  }

  /** Splitting a concatenation where its parts meet. */
  lemma SliceConcat<T>(a: seq<T>, b: seq<T>)
    ensures (a + b)[..|a|] == a && (a + b)[|a|..] == b
  {
  }

  /** Python's slice `s[:-n]`: everything but the last `n` characters, and the
      empty string when `s` is shorter than that (or when `n` is 0). */
  function DropLast(s: string, n: nat): (r: string)
    ensures |r| == if 0 < n <= |s| then |s| - n else 0
    ensures r == s[..|r|]
  {
    if 0 < n <= |s| then s[..|s| - n] else ""
  }

  /** Dropping a suffix by its length gives back what preceded it. */
  lemma DropLastConcat(a: string, b: string)
    requires |b| > 0
    ensures DropLast(a + b, |b|) == a
  {
    assert (a + b)[..|a|] == a;
  }

  /** Dropping a suffix the string ends with and putting it back gives the string. */
  lemma DropLastEndsWith(s: string, suffix: string)
    requires |suffix| > 0 && EndsWith(s, suffix)
    ensures DropLast(s, |suffix|) + suffix == s
  {
    assert s == s[..|s| - |suffix|] + s[|s| - |suffix|..];
  }

  /** Python's `sep.join(parts)`. */
  function Join(sep: string, parts: seq<string>): (r: string)
    ensures |parts| == 0 ==> r == ""
    ensures |parts| > 0 ==> StartsWith(r, parts[0]) && EndsWith(r, parts[|parts| - 1])
  {
    if |parts| == 0 then ""
    else if |parts| == 1 then parts[0]
    else
      var init := Join(sep, parts[..|parts| - 1]);
      assert parts[..|parts| - 1][0] == parts[0];
      assert (init + sep + parts[|parts| - 1])[..|parts[0]|] == init[..|parts[0]|];
      EndsWithConcat(init + sep, parts[|parts| - 1]);
      init + sep + parts[|parts| - 1]
  }

  /** Joining three parts puts the separator between neighbours only. */
  lemma JoinThree(sep: string, a: string, b: string, c: string)
    ensures Join(sep, [a, b, c]) == a + sep + b + sep + c
  {
    assert [a, b, c][..2] == [a, b];
    assert [a, b][..1] == [a];
    assert Join(sep, [a]) == a;
    assert Join(sep, [a, b]) == a + sep + b;
  }

  /** Joining five parts puts the separator between neighbours only. */
  lemma JoinFive(sep: string, a: string, b: string, c: string, d: string, e: string)
    ensures Join(sep, [a, b, c, d, e]) == a + sep + b + sep + c + sep + d + sep + e
  {
    assert [a, b, c, d, e][..4] == [a, b, c, d];
    assert [a, b, c, d][..3] == [a, b, c];
    JoinThree(sep, a, b, c);
  }

  /** Python's `None`-tolerant string formatting: `"{}".format(x)` renders a
      missing value as the text `None`. */
  function FormatOpt(o: Option<string>): (r: string)
    ensures o.Some? ==> r == o.value
  {
    match o
    case None => "None"
    case Some(v) => v
  }

  function DigitChar(d: nat): (c: char)
    requires d < 10
    ensures '0' <= c <= '9'
  {
    (48 + d) as char
  }

  function DigitValue(c: char): nat
  {
    if '0' <= c <= '9' then (c as int - 48) as nat else 0
  }

  /** Python's `str(n)` for a non-negative integer: its decimal digits. */
  function NatToString(n: nat): (r: string)
    ensures |r| > 0
    ensures forall i :: 0 <= i < |r| ==> '0' <= r[i] <= '9'
  {
    if n < 10 then [DigitChar(n)] else NatToString(n / 10) + [DigitChar(n % 10)]
  }

  /** Reads a string of decimal digits back as a number. */
  function DigitsValue(s: string): nat
  {
    if s == [] then 0 else DigitsValue(s[..|s| - 1]) * 10 + DigitValue(s[|s| - 1])
  }

  /** The decimal rendering of a number reads back as that number. */
  lemma {:induction false} NatToStringRoundTrip(n: nat)
    ensures DigitsValue(NatToString(n)) == n
  {
    if n >= 10 {
      NatToStringRoundTrip(n / 10);
      var s := NatToString(n);
      assert s[..|s| - 1] == NatToString(n / 10);
    }
  }

  /** Python's `str(n)` for an integer. */
  function IntToString(n: int): (r: string)
    ensures |r| > 0
    ensures n >= 0 ==> r == NatToString(n)
    ensures n < 0 ==> r == "-" + NatToString(-n)
  {
    if n < 0 then "-" + NatToString(-n) else NatToString(n)
  }

  // The argument helpers of the job framework (`required`, `optional`,
  // `conditional`). The framework is not part of this model; each helper is
  // modelled by what every use in the builders relies on: the text it
  // contributes is padded with one space on each side, so that neighbouring
  // helpers stay separate tokens (`required("-o ", p) + required("", f)`).

  /** A command-line token with a space on each side. */
  function Pad(text: string): (r: string)
    ensures |r| == |text| + 2 && r[0] == ' ' && r[|r| - 1] == ' '
    ensures r[1..|r| - 1] == text
  {
    " " + text + " "
  }

  /** `required(prefix, value)`: the prefixed value; a missing value is a
      configuration error raised when the command is generated. */
  function Required(prefix: string, value: Option<string>): (r: Result<string>)
    ensures r.Ok? <==> value.Some?
    ensures value.Some? ==> r.value == Pad(prefix + value.value)
  {
    match value
    case None => Err(ValueError("required parameter " + prefix + " is not set"))
    case Some(v) => Ok(Pad(prefix + v))
  }

  /** `optional(prefix, value)`: the prefixed value, or nothing when unset. */
  function Optional(prefix: string, value: Option<string>): (r: string)
    ensures value.None? ==> r == ""
    ensures value.Some? ==> r == Pad(prefix + value.value)
  {
    match value
    case None => ""
    case Some(v) => Pad(prefix + v)
  }

  /** `conditional(flag, text)`: the text only when the flag is truthy. */
  function Conditional(flag: bool, text: string): (r: string)
    ensures flag ==> r == Pad(text)
    ensures !flag ==> r == ""
  {
    if flag then Pad(text) else ""
  }
}
