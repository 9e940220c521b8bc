/** Values shared by both core files: error-carrying results, the JSON/YAML
    objects the code receives (Python dicts, lists and scalars), dictionary
    lookup with Python's KeyError/TypeError behaviour, and Python's str()/repr()
    rendering of those objects. */
module Values {

  datatype Option<+T> = None | Some(value: T)

  /** The exceptions the modelled Python code can raise. */
  datatype Error =
    | KeyError(key: string)
    | TypeError(reason: string)
    | ValueError(reason: string)
    | JsonDecodeError

  datatype Result<+T> = Ok(value: T) | Err(error: Error) {
    predicate IsFailure() { Err? }
    function PropagateFailure<U>(): Result<U>
      requires Err?
    {
      Err(error)
    }
    function Extract(): T
      requires Ok?
    {
      value
    }
  }

  /** A decoded JSON or YAML object. Floats are not modelled. A dict is the
      ordered list of its entries (Python dicts keep insertion order). */
  datatype Value =
    | Null
    | Bool(b: bool)
    | Int(i: int)
    | Str(s: string)
    | List(items: seq<Value>)
    | Dict(entries: seq<Entry>)

  datatype Entry = Entry(key: string, val: Value)

  /** `d[k]` on a dict given by its entries: the value of the last entry with
      key `k`, as `dict(pairs)` keeps the last of repeated keys. */
  function Get(es: seq<Entry>, k: string): Option<Value>
  {
    if es == [] then None
    else if es[|es| - 1].key == k then Some(es[|es| - 1].val)
    else Get(es[..|es| - 1], k)
  }

  /** The lookup finds nothing exactly when no entry has the key, and
      otherwise the value of an entry with the key that no later entry
      overrides. */
  lemma GetIsLast(es: seq<Entry>, k: string)
    ensures Get(es, k).None? <==> forall i :: 0 <= i < |es| ==> es[i].key != k
    ensures Get(es, k).Some? ==> exists i :: 0 <= i < |es| && es[i].key == k && es[i].val == Get(es, k).value &&
                                     forall j :: i < j < |es| ==> es[j].key != k
  {
    GetNone(es, k);
    if Get(es, k).Some? {
      var i := GetSome(es, k);
    }
  }

  lemma {:induction false} GetNone(es: seq<Entry>, k: string)
    ensures Get(es, k).None? <==> forall i :: 0 <= i < |es| ==> es[i].key != k
  {
    if es != [] && es[|es| - 1].key != k {
      var init := es[..|es| - 1];
      GetNone(init, k);
      assert forall i :: 0 <= i < |init| ==> init[i] == es[i];
    }
  }

  lemma {:induction false} GetSome(es: seq<Entry>, k: string) returns (i: nat)
    requires Get(es, k).Some?
    ensures i < |es| && es[i].key == k && es[i].val == Get(es, k).value
    ensures forall j :: i < j < |es| ==> es[j].key != k
  {
    if es[|es| - 1].key == k {
      i := |es| - 1;
    } else {
      var init := es[..|es| - 1];
      i := GetSome(init, k);
      assert es[i] == init[i];
    }
  }

  /** Python's `v[k]` with a string key: a dict gives its value or raises
      KeyError; any other object raises TypeError. */
  function Index(v: Value, k: string): (r: Result<Value>)
    ensures r.Ok? <==> v.Dict? && Get(v.entries, k).Some?
    ensures r.Ok? ==> r.value == Get(v.entries, k).value
    ensures r == Err(KeyError(k)) <==> v.Dict? && Get(v.entries, k).None?
  {
    match v
    case Dict(es) =>
      (match Get(es, k)
       case Some(x) => Ok(x)
       case None => Err(KeyError(k)))
    case _ => Err(TypeError("object is not subscriptable by a string"))
  }

  /** Whether Python can use the object as a dict key or DataFrame label. */
  predicate Hashable(v: Value)
  {
    !v.List? && !v.Dict?
  }

  function DigitChar(d: nat): char
    requires d < 10
  {
    "0123456789"[d]
  }

  function NatToString(n: nat): (s: string)
    ensures |s| > 0
    ensures forall i :: 0 <= i < |s| ==> '0' <= s[i] <= '9'
    decreases n
  {
    if n < 10 then [DigitChar(n)] else NatToString(n / 10) + [DigitChar(n % 10)]
  }

  /** The number a string of decimal digits denotes: the reference reading
      `int(s)` that the rendering is checked against. */
  function DigitsValue(s: string): nat
    requires forall i :: 0 <= i < |s| ==> '0' <= s[i] <= '9'
  {
    if s == [] then 0 else 10 * DigitsValue(s[..|s| - 1]) + (s[|s| - 1] as int - '0' as int)
  }

  /** `str(n)` reads back as `n`, and has no leading zero. */
  lemma {:induction false} NatToStringRoundTrip(n: nat)
    ensures DigitsValue(NatToString(n)) == n
    ensures NatToString(n)[0] == '0' ==> n == 0
    decreases n
  {
    var s := NatToString(n);
    if n >= 10 {
      NatToStringRoundTrip(n / 10);
      assert s[..|s| - 1] == NatToString(n / 10);
      assert s[0] == NatToString(n / 10)[0];
    }
  }

  /** `str(i)` of a Python int. */
  function IntToString(i: int): (s: string)
    ensures |s| > 0
  {
    if i < 0 then "-" + NatToString(-i) else NatToString(i)
  }

  /** `str(v)`. A string is itself; containers show the repr of their items. */
  function PyStr(v: Value): string
    decreases v, 1
  {
    match v
    case Null => "None"
    case Bool(b) => if b then "True" else "False"
    case Int(i) => IntToString(i)
    case Str(s) => s
    case List(xs) => "[" + ReprItems(xs, |xs|) + "]"
    case Dict(es) => "{" + ReprEntries(es, |es|) + "}"
  }

  /** `str` of the scalars: `None`, `True`, `False`, a string itself, and an
      int as an optional `-` followed by the decimal digits of its magnitude. */
  lemma PyStrScalars(v: Value)
    ensures v == Null ==> PyStr(v) == "None"
    ensures v == Bool(true) ==> PyStr(v) == "True"
    ensures v == Bool(false) ==> PyStr(v) == "False"
    ensures v.Str? ==> PyStr(v) == v.s
    ensures v.Int? ==> (PyStr(v)[0] == '-' <==> v.i < 0)
    ensures v.Int? && v.i < 0 ==> DigitsValue(PyStr(v)[1..]) == -v.i
    ensures v.Int? && v.i >= 0 ==> DigitsValue(PyStr(v)) == v.i
  {
    if v.Int? {
      var n := if v.i < 0 then -v.i else v.i;
      NatToStringRoundTrip(n);
      if v.i < 0 {
        assert PyStr(v)[1..] == NatToString(n);
      }
    }
  }

  /** `str` of a list or dict is bracketed by `[`/`]` or `{`/`}`. */
  lemma PyStrContainers(v: Value)
    ensures v.List? ==> PyStr(v)[0] == '[' && PyStr(v)[|PyStr(v)| - 1] == ']'
    ensures v.Dict? ==> PyStr(v)[0] == '{' && PyStr(v)[|PyStr(v)| - 1] == '}'
  {
  }

  /** `repr(v)`: as `str`, except that a string is quoted. */
  function PyRepr(v: Value): string
    decreases v, 2
  {
    match v
    case Str(s) => "'" + s + "'"
    case _ => PyStr(v)
  }

  /** `repr` quotes a string and otherwise agrees with `str`. */
  lemma PyReprQuotes(v: Value)
    ensures v.Str? ==> |PyRepr(v)| == |v.s| + 2
    ensures v.Str? ==> PyRepr(v)[0] == '\'' && PyRepr(v)[|PyRepr(v)| - 1] == '\''
    ensures v.Str? ==> PyRepr(v)[1..|PyRepr(v)| - 1] == v.s
    ensures !v.Str? ==> PyRepr(v) == PyStr(v)
  {
  }

  /** `', '.join(repr(x) for x in xs[:n])` */
  function ReprItems(xs: seq<Value>, n: nat): string
    requires n <= |xs|
    decreases List(xs), 0, n
  {
    if n == 0 then ""
    else if n == 1 then PyRepr(xs[0])
    else ReprItems(xs, n - 1) + ", " + PyRepr(xs[n - 1])
  }

  /** `', '.join(repr(k) + ': ' + repr(v) for k, v in es[:n])` */
  function ReprEntries(es: seq<Entry>, n: nat): string
    requires n <= |es|
    decreases Dict(es), 0, n
  {
    if n == 0 then ""
    else
      var item := "'" + es[n - 1].key + "': " + PyRepr(es[n - 1].val);
      if n == 1 then item else ReprEntries(es, n - 1) + ", " + item
  }

  /** `', '.join(str(x) for x in xs[:n])`, the rendering of a list value by
      flatten_object. */
  function JoinStr(xs: seq<Value>, n: nat): (s: string)
    requires n <= |xs|
  {
    if n == 0 then ""
    else if n == 1 then PyStr(xs[0])
    else JoinStr(xs, n - 1) + ", " + PyStr(xs[n - 1])
  }
}
