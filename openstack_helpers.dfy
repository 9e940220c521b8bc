/** The text and object helpers used around the OpenStack command-line tools:
    reading the pipe-delimited tables the CLIs print, flattening nested
    objects into one level of `_`-joined keys, collecting objects into a
    sparse table keyed by (id, column), and reading `SALTAPI...=value`
    settings. */
module OpenstackHelpers {
  import opened Values
  import opened Text

  // ---------------------------------------------------------------------
  // parse_cmd_output

  /** `[x for x in lines if x]` */
  function NonEmpty(lines: seq<string>): (r: seq<string>)
    ensures |r| <= |lines|
    ensures forall i :: 0 <= i < |r| ==> r[i] != ""
  {
    if lines == [] then []
    else (if lines[0] == "" then [] else [lines[0]]) + NonEmpty(lines[1..])
  }

  /** Filtering distributes over concatenation; with the rule for a single
      line (kept exactly when it is not empty) this pins down that the empty
      lines, and only they, are dropped and the rest keep their order. */
  lemma {:induction false} NonEmptyAppend(a: seq<string>, b: seq<string>)
    ensures NonEmpty(a + b) == NonEmpty(a) + NonEmpty(b)
  {
    if a == [] {
      assert a + b == b;
    } else {
      assert (a + b)[1..] == a[1..] + b;
      NonEmptyAppend(a[1..], b);
    }
  }

  lemma NonEmptySingle(x: string)
    ensures NonEmpty([x]) == if x == "" then [] else [x]
  {
    assert [x][1..] == [];
  }

  /** The non-empty lines of a CLI's output. */
  function Lines(text: string): seq<string>
  {
    NonEmpty(Split(text, '\n'))
  }

  /** The text between the first and the second `|` of a line (to the end of
      the line when there is only one `|`). */
  function SecondField(x: string): string
    requires '|' in x
  {
    FindCharIsFirst(x, '|');
    var rest := x[FindChar(x, '|') + 1..];
    FindCharIsFirst(rest, '|');
    if '|' in rest then rest[..FindChar(rest, '|')] else rest
  }

  lemma SplitSecondIsSecondField(x: string)
    requires '|' in x
    ensures |Split(x, '|')| >= 2 && Split(x, '|')[1] == SecondField(x)
  {
    var p := SplitAtFirst(x, '|');
    var rest := x[p + 1..];
    assert Split(x, '|')[1] == Split(rest, '|')[0];
    if '|' in rest {
      var q := SplitAtFirst(rest, '|');
      assert Split(rest, '|')[0] == rest[..q];
      assert SecondField(x) == rest[..q];
    } else {
      FindCharIsFirst(rest, '|');
      assert Split(rest, '|') == [rest];
      assert SecondField(x) == rest;
    }
  }

  predicate AllPiped(ls: seq<string>)
  {
    forall i :: 0 <= i < |ls| ==> '|' in ls[i]
  }

  /** `[x.split("|")[1].strip() for x in ls]`: the stripped second cell of
      every line. */
  function PipeCells(ls: seq<string>): (r: seq<string>)
    requires AllPiped(ls)
    ensures |r| == |ls|
    ensures forall i :: 0 <= i < |ls| ==> r[i] == Strip(SecondField(ls[i]))
  {
    if ls == [] then []
    else
      SplitSecondIsSecondField(ls[0]);
      [Strip(Split(ls[0], '|')[1])] + PipeCells(ls[1..])
  }

  /** `[x.strip() for x in ls]` */
  function StripAll(ls: seq<string>): (r: seq<string>)
    ensures |r| == |ls|
    ensures forall i :: 0 <= i < |ls| ==> r[i] == Strip(ls[i])
  {
    if ls == [] then [] else [Strip(ls[0])] + StripAll(ls[1..])
  }

  /** `parse_cmd_output(text)`: one element per non-empty line, in order.
      When every such line holds a `|`, each element is the stripped text
      between the line's first and second `|`. As soon as one line has no
      `|` (the comprehension raises IndexError) the whole output is read
      instead as the stripped lines themselves, including the lines that did
      hold a `|`. */
  function ParseCmdOutput(text: string): (r: seq<string>)
    ensures |r| == |Lines(text)|
    ensures AllPiped(Lines(text)) ==>
      forall i :: 0 <= i < |r| ==> r[i] == Strip(SecondField(Lines(text)[i]))
    ensures !AllPiped(Lines(text)) ==>
      forall i :: 0 <= i < |r| ==> r[i] == Strip(Lines(text)[i])
  {
    var ls := Lines(text);
    if AllPiped(ls) then PipeCells(ls) else StripAll(ls)
  }

  /** Reading the lines one at a time: a first line `a` that is not empty
      comes first, and the rest are the lines of what follows its newline. */
  lemma LinesCons(a: string, b: string)
    requires '\n' !in a && a != ""
    ensures Lines(a + "\n" + b) == [a] + Lines(b)
  {
    SplitCons(a, '\n', b);
    NonEmptyAppend([a], Split(b, '\n'));
    NonEmptySingle(a);
  }

  /** An empty line is skipped. */
  lemma LinesSkipsEmpty(b: string)
    ensures Lines("\n" + b) == Lines(b)
  {
    SplitCons("", '\n', b);
    assert "" + ['\n'] + b == "\n" + b;
    NonEmptyAppend([""], Split(b, '\n'));
    NonEmptySingle("");
  }

  // ---------------------------------------------------------------------
  // flatten_object

  /** The keys `flatten_object` writes for one nested key `k`:
      `str(k) + '_' + s` for every key `s` of the flattened sub-object. */
  function Prefixed(k: string, m: map<string, Value>): (p: map<string, Value>)
  {
    assert forall s1, s2 | s1 in m && s2 in m && k + "_" + s1 == k + "_" + s2 :: s1 == s2 by {
      forall s1, s2 | s1 in m && s2 in m && k + "_" + s1 == k + "_" + s2 ensures s1 == s2 {
        assert s1 == (k + "_" + s1)[|k| + 1..];
        assert s2 == (k + "_" + s2)[|k| + 1..];
      }
    }
    map s | s in m :: k + "_" + s := m[s]
  }

  lemma PrefixedAt(k: string, m: map<string, Value>, s: string)
    ensures k + "_" + s in Prefixed(k, m) <==> s in m
    ensures s in m ==> Prefixed(k, m)[k + "_" + s] == m[s]
  {
    if k + "_" + s in Prefixed(k, m) {
      var s' :| s' in m && k + "_" + s' == k + "_" + s;
      assert s' == (k + "_" + s')[|k| + 1..];
    }
  }

  /** What one entry `k: v` of the object adds to the result. */
  function Contribution(e: Entry): map<string, Value>
    decreases e.val
  {
    match e.val
    case Dict(sub) => Prefixed(e.key, FlattenedUpTo(sub, |sub|))
    case List(xs) => map[e.key := Str(JoinStr(xs, |xs|))]
    case _ => map[e.key := e.val]
  }

  /** The result after the first `n` entries, later writes winning. */
  function FlattenedUpTo(es: seq<Entry>, n: nat): map<string, Value>
    requires n <= |es|
    decreases Dict(es), n
  {
    if n == 0 then map[] else FlattenedUpTo(es, n - 1) + Contribution(es[n - 1])
  }

  function Flattened(es: seq<Entry>): map<string, Value>
  {
    FlattenedUpTo(es, |es|)
  }

  /** `flatten_object(data)` for a dict given by its entries. */
  method FlattenObject(data: seq<Entry>) returns (result: map<string, Value>)
    ensures result == Flattened(data)
    decreases Dict(data), 0
  {
    result := map[];
    var i := 0;
    while i < |data|
      invariant 0 <= i <= |data|
      invariant result == FlattenedUpTo(data, i)
    {
      result := AddEntry(result, data[i]);
      i := i + 1;
    }
  }

  /** The loop body for one entry `k: v`: a nested dict is flattened and
      copied under prefixed keys, a list is joined into one string, and any
      other value is stored as it is. */
  method AddEntry(m: map<string, Value>, e: Entry) returns (result: map<string, Value>)
    ensures result == m + Contribution(e)
    decreases e.val, 1
  {
    var k, v := e.key, e.val;
    if v.Dict? {
      var sub := FlattenObject(v.entries);
      result := CopyPrefixed(m, k, sub);
    } else if v.List? {
      PlusSingleton(m, k, Str(JoinStr(v.items, |v.items|)));
      result := m[k := Str(JoinStr(v.items, |v.items|))];
    } else {
      PlusSingleton(m, k, v);
      result := m[k := v];
    }
  }

  lemma PlusSingleton(m: map<string, Value>, k: string, v: Value)
    ensures m[k := v] == m + map[k := v]
  {
  }

  /** `for s in sub: result[str(k) + '_' + s] = sub[s]` */
  method CopyPrefixed(m: map<string, Value>, k: string, sub: map<string, Value>) returns (result: map<string, Value>)
    ensures result == m + Prefixed(k, sub)
  {
    result := m;
    var todo := sub.Keys;
    ghost var done: map<string, Value> := map[];
    while todo != {}
      invariant todo !! done.Keys && todo + done.Keys == sub.Keys
      invariant forall s :: s in done ==> done[s] == sub[s]
      invariant result == m + Prefixed(k, done)
      decreases todo
    {
      var s :| s in todo;
      CopyStep(m, k, sub, done, todo, s);
      result := result[k + "_" + s := sub[s]];
      done := done[s := sub[s]];
      todo := todo - {s};
    }
    MapsAgree(done, sub);
  }

  /** Copying one more key `s` of `sub` extends the prefixed copy by that
      key and keeps the copied part in agreement with `sub`. */
  lemma CopyStep(m: map<string, Value>, k: string, sub: map<string, Value>, done: map<string, Value>, todo: set<string>, s: string)
    requires todo !! done.Keys && todo + done.Keys == sub.Keys && s in todo
    requires forall s' :: s' in done ==> done[s'] == sub[s']
    ensures (todo - {s}) !! done[s := sub[s]].Keys && (todo - {s}) + done[s := sub[s]].Keys == sub.Keys
    ensures forall s' :: s' in done[s := sub[s]] ==> done[s := sub[s]][s'] == sub[s']
    ensures (m + Prefixed(k, done))[k + "_" + s := sub[s]] == m + Prefixed(k, done[s := sub[s]])
  {
    PlusUpdate(m, Prefixed(k, done), k + "_" + s, sub[s]);
    PrefixedUpdate(k, done, s, sub[s]);
  }

  lemma MapsAgree(a: map<string, Value>, b: map<string, Value>)
    requires a.Keys == b.Keys
    requires forall s :: s in a ==> a[s] == b[s]
    ensures a == b
  {
  }

  lemma PlusUpdate(m: map<string, Value>, p: map<string, Value>, x: string, v: Value)
    ensures (m + p)[x := v] == m + p[x := v]
  {
  }

  lemma PrefixedUpdate(k: string, m: map<string, Value>, s: string, v: Value)
    ensures Prefixed(k, m[s := v]) == Prefixed(k, m)[k + "_" + s := v]
  {
    var lhs, rhs := Prefixed(k, m[s := v]), Prefixed(k, m)[k + "_" + s := v];
    forall x | x in lhs ensures x in rhs && lhs[x] == rhs[x] {
      var s' :| s' in m[s := v] && x == k + "_" + s';
      PrefixedAt(k, m[s := v], s');
      if s' != s {
        assert s' == x[|k| + 1..] && s == (k + "_" + s)[|k| + 1..];
        PrefixedAt(k, m, s');
      }
    }
    forall x | x in rhs ensures x in lhs {
      if x != k + "_" + s {
        var s' :| s' in m && x == k + "_" + s';
        PrefixedAt(k, m[s := v], s');
      }
    }
  }

  /** `[str(x) for x in xs]` */
  function StrsOf(xs: seq<Value>): (r: seq<string>)
    ensures |r| == |xs|
    ensures forall i :: 0 <= i < |xs| ==> r[i] == PyStr(xs[i])
  {
    if xs == [] then [] else [PyStr(xs[0])] + StrsOf(xs[1..])
  }

  /** The rendering of a list value is `', '.join` of the `str` of its items. */
  lemma {:induction false} JoinStrIsJoin(xs: seq<Value>, n: nat)
    requires n <= |xs|
    ensures JoinStr(xs, n) == Join(StrsOf(xs[..n]), ", ")
  {
    if n == 1 {
      assert StrsOf(xs[..1]) == [PyStr(xs[0])];
    } else if n > 1 {
      JoinStrIsJoin(xs, n - 1);
      var ps := StrsOf(xs[..n - 1]);
      assert StrsOf(xs[..n]) == ps + [PyStr(xs[n - 1])];
      JoinSnoc(ps, PyStr(xs[n - 1]), ", ");
    }
  }

  /** The rules for one entry: a list becomes the `', '`-join of the `str` of
      its items, a scalar is kept unchanged, a nested dict contributes its own
      flattened keys under `k + '_'`, and an empty nested dict contributes
      nothing. */
  lemma ContributionRules(e: Entry)
    ensures e.val.List? ==> Contribution(e) == map[e.key := Str(JoinStr(e.val.items, |e.val.items|))]
    ensures !e.val.List? && !e.val.Dict? ==> Contribution(e) == map[e.key := e.val]
    ensures e.val == Dict([]) ==> Contribution(e) == map[]
    ensures e.val.Dict? ==> forall s :: s in Flattened(e.val.entries) ==>
      e.key + "_" + s in Contribution(e) && Contribution(e)[e.key + "_" + s] == Flattened(e.val.entries)[s]
  {
    if e.val.Dict? {
      assert Contribution(e) == Prefixed(e.key, Flattened(e.val.entries));
      forall s | s in Flattened(e.val.entries)
        ensures e.key + "_" + s in Contribution(e) && Contribution(e)[e.key + "_" + s] == Flattened(e.val.entries)[s]
      {
        PrefixedAt(e.key, Flattened(e.val.entries), s);
      }
    }
  }

  /** No value of the flattened object is a dict. */
  lemma {:induction false} FlattenedHasNoDict(es: seq<Entry>, n: nat)
    requires n <= |es|
    ensures forall x :: x in FlattenedUpTo(es, n) ==> !FlattenedUpTo(es, n)[x].Dict?
    decreases Dict(es), n
  {
    if n > 0 {
      FlattenedHasNoDict(es, n - 1);
      var e := es[n - 1];
      if e.val.Dict? {
        var sub := e.val.entries;
        FlattenedHasNoDict(sub, |sub|);
        forall x | x in Contribution(e) ensures !Contribution(e)[x].Dict? {
          var s :| s in FlattenedUpTo(sub, |sub|) && x == e.key + "_" + s;
          PrefixedAt(e.key, FlattenedUpTo(sub, |sub|), s);
        }
      }
    }
  }

  /** A key is in the result exactly when some entry contributes it. */
  lemma {:induction false} FlattenedKeys(es: seq<Entry>, n: nat, x: string)
    requires n <= |es|
    ensures x in FlattenedUpTo(es, n) <==> exists i :: 0 <= i < n && x in Contribution(es[i])
  {
    if n > 0 {
      FlattenedKeys(es, n - 1, x);
    }
  }

  /** The value under a key is the one written by the last entry that
      contributes that key (key collisions such as `{"a_b": 1, "a": {"b": 2}}`
      are resolved by entry order). */
  lemma {:induction false} FlattenedLastWins(es: seq<Entry>, n: nat, i: nat, x: string)
    requires i < n <= |es|
    requires x in Contribution(es[i])
    requires forall j :: i < j < n ==> x !in Contribution(es[j])
    ensures x in FlattenedUpTo(es, n) && FlattenedUpTo(es, n)[x] == Contribution(es[i])[x]
  {
    if i < n - 1 {
      FlattenedLastWins(es, n - 1, i, x);
    }
  }

  /** A nested key `s` under `k` appears as `k + '_' + s` with the nested
      value, unless a later entry writes the same key. */
  lemma FlattenedNestedKey(es: seq<Entry>, i: nat, s: string)
    requires i < |es| && es[i].val.Dict? && s in Flattened(es[i].val.entries)
    requires forall j :: i < j < |es| ==> es[i].key + "_" + s !in Contribution(es[j])
    ensures es[i].key + "_" + s in Flattened(es)
    ensures Flattened(es)[es[i].key + "_" + s] == Flattened(es[i].val.entries)[s]
  {
    ContributionRules(es[i]);
    FlattenedLastWins(es, |es|, i, es[i].key + "_" + s);
  }

  // ---------------------------------------------------------------------
  // munch_to_dataframe

  /** A sparse table: row label -> column -> cell. A missing cell is NaN. */
  type Table = map<Value, map<string, Value>>

  function Row(t: Table, id: Value): map<string, Value>
  {
    if id in t then t[id] else map[]
  }

  /** Writing every cell of `obj` into row `id` (`result.at[id, key] = v`);
      no write at all, and so no new row, when `obj` is empty. */
  function SetCells(t: Table, id: Value, obj: map<string, Value>): Table
  {
    if obj == map[] then t else t[id := Row(t, id) + obj]
  }

  /** What writing one element's cells does to any cell `(id', key)`. */
  lemma SetCellsAt(t: Table, id: Value, obj: map<string, Value>, id': Value, key: string)
    ensures var u := SetCells(t, id, obj);
      (id' in u <==> id' in t || (id' == id && obj != map[])) &&
      (id' in u && key in u[id'] <==> (id' in t && key in t[id']) || (id' == id && key in obj)) &&
      (id' in u && key in u[id'] ==> u[id'][key] == if id' == id && key in obj then obj[key] else t[id'][key])
  {
  }

  lemma SetCellsWrite(t: Table, id: Value, done: map<string, Value>, key: string, v: Value)
    ensures SetCells(t, id, done[key := v]) ==
      SetCells(t, id, done)[id := Row(SetCells(t, id, done), id)[key := v]]
  {
    var u := SetCells(t, id, done);
    assert Row(u, id) == Row(t, id) + done;
    assert key in done[key := v];
    assert SetCells(t, id, done[key := v]) == t[id := Row(t, id) + done[key := v]];
    PlusUpdate(Row(t, id), done, key, v);
    if done == map[] {
      assert done[key := v] == map[key := v];
      assert Row(t, id) + map[key := v] == Row(t, id)[key := v];
    } else {
      assert u[id := Row(u, id)[key := v]] == t[id := Row(t, id) + done[key := v]];
    }
    assert Row(t, id) + done[key := v] == (Row(t, id) + done)[key := v];
  }

  /** The flattened object of an element that is a dict. */
  function FlatOf(v: Value): map<string, Value>
  {
    if v.Dict? then Flattened(v.entries) else map[]
  }

  /** The table after the first `n` elements of `source`: `elem[id_field]`
      raises for an element without the id field, and pandas refuses a list
      or dict as a row label. */
  function MunchedUpTo(source: seq<Value>, idField: string, n: nat): Result<Table>
    requires n <= |source|
  {
    if n == 0 then Ok(map[])
    else
      match MunchedUpTo(source, idField, n - 1)
      case Err(e) => Err(e)
      case Ok(t) =>
        match Index(source[n - 1], idField)
        case Err(e) => Err(e)
        case Ok(id) =>
          var obj := FlatOf(source[n - 1]);
          if obj != map[] && !Hashable(id) then Err(TypeError("unhashable row label"))
          else Ok(SetCells(t, id, obj))
  }

  function Munched(source: seq<Value>, idField: string): Result<Table>
  {
    MunchedUpTo(source, idField, |source|)
  }

  lemma {:induction false} MunchedErrSticks(source: seq<Value>, idField: string, n: nat, m: nat)
    requires n <= m <= |source| && MunchedUpTo(source, idField, n).Err?
    ensures MunchedUpTo(source, idField, m) == MunchedUpTo(source, idField, n)
    decreases m
  {
    if m > n {
      MunchedErrSticks(source, idField, n, m - 1);
    }
  }

  /** `munch_to_dataframe(source, id_field)` */
  method MunchToDataframe(source: seq<Value>, idField: string) returns (r: Result<Table>)
    ensures r == Munched(source, idField)
  {
    var result: Table := map[];
    var n := 0;
    while n < |source|
      invariant 0 <= n <= |source|
      invariant MunchedUpTo(source, idField, n) == Ok(result)
    {
      var idLookup := Index(source[n], idField);
      if idLookup.Err? {
        MunchedErrSticks(source, idField, n + 1, |source|);
        return Err(idLookup.error);
      }
      var obj := FlattenObject(source[n].entries);
      var written := WriteCells(result, idLookup.value, obj);
      if written.Err? {
        MunchedUnhashable(source, idField, n, result);
        return Err(written.error);
      }
      MunchedStep(source, idField, n, result);
      result := written.value;
      n := n + 1;
    }
    r := Ok(result);
  }

  /** The inner loop of munch_to_dataframe: `result.at[id, key] = v` for
      every cell of one flattened element. The first write fails when the
      label is a list or dict. */
  method WriteCells(t: Table, id: Value, obj: map<string, Value>) returns (r: Result<Table>)
    ensures r.Err? <==> obj != map[] && !Hashable(id)
    ensures r.Err? ==> r.error == TypeError("unhashable row label")
    ensures r.Ok? ==> r.value == SetCells(t, id, obj)
  {
    var result := t;
    var todo := obj.Keys;
    ghost var done: map<string, Value> := map[];
    while todo != {}
      invariant todo !! done.Keys && todo + done.Keys == obj.Keys
      invariant forall key :: key in done ==> done[key] == obj[key]
      invariant result == SetCells(t, id, done)
      invariant done != map[] ==> Hashable(id)
      decreases todo
    {
      var key :| key in todo;
      if !Hashable(id) {
        return Err(TypeError("unhashable row label"));
      }
      SetCellsWrite(t, id, done, key, obj[key]);
      result := result[id := Row(result, id)[key := obj[key]]];
      done := done[key := obj[key]];
      todo := todo - {key};
    }
    MapsAgree(done, obj);
    r := Ok(result);
  }

  /** One more element whose id is found and usable as a label writes its
      flattened cells into its row. */
  lemma MunchedStep(source: seq<Value>, idField: string, n: nat, t: Table)
    requires n < |source| && MunchedUpTo(source, idField, n) == Ok(t)
    requires Index(source[n], idField).Ok?
    requires FlatOf(source[n]) != map[] ==> Hashable(Index(source[n], idField).value)
    ensures MunchedUpTo(source, idField, n + 1) == Ok(SetCells(t, Index(source[n], idField).value, FlatOf(source[n])))
  {
  }

  /** An element with cells and a list or dict as its id ends the loop with
      TypeError. */
  lemma MunchedUnhashable(source: seq<Value>, idField: string, n: nat, t: Table)
    requires n < |source| && MunchedUpTo(source, idField, n) == Ok(t)
    requires Index(source[n], idField).Ok? && !Hashable(Index(source[n], idField).value)
    requires FlatOf(source[n]) != map[]
    ensures Munched(source, idField) == Err(TypeError("unhashable row label"))
  {
    MunchedErrSticks(source, idField, n + 1, |source|);
  }


  /** Element `e` is a dict whose id field holds `id`. */
  predicate HasId(e: Value, idField: string, id: Value)
  {
    e.Dict? && Get(e.entries, idField) == Some(id)
  }

  /** If any element lacks the id field (or is not a dict), the call fails. */
  lemma {:induction false} MunchedNeedsIds(source: seq<Value>, idField: string, i: nat)
    requires i < |source|
    requires Index(source[i], idField).Err?
    ensures Munched(source, idField).Err?
  {
    if MunchedUpTo(source, idField, i).Err? {
      MunchedErrSticks(source, idField, i, |source|);
    } else {
      MunchedErrSticks(source, idField, i + 1, |source|);
    }
  }

  /** One row per distinct id (among the elements that write any cell). */
  lemma {:induction false} MunchedRows(source: seq<Value>, idField: string, n: nat, id: Value)
    requires n <= |source|
    requires MunchedUpTo(source, idField, n).Ok?
    ensures id in MunchedUpTo(source, idField, n).value <==>
      exists i :: 0 <= i < n && HasId(source[i], idField, id) && FlatOf(source[i]) != map[]
  {
    if n > 0 {
      MunchedRows(source, idField, n - 1, id);
      var e := source[n - 1];
      var id' := Index(e, idField).value;
      assert HasId(e, idField, id');
      SetCellsAt(MunchedUpTo(source, idField, n - 1).value, id', FlatOf(e), id, "");
    }
  }

  /** A cell `(id, key)` exists exactly when some element with that id has
      `key` among its flattened keys. */
  lemma {:induction false} MunchedCells(source: seq<Value>, idField: string, n: nat, id: Value, key: string)
    requires n <= |source|
    requires MunchedUpTo(source, idField, n).Ok?
    ensures var t := MunchedUpTo(source, idField, n).value;
      id in t && key in t[id] <==>
      exists i :: 0 <= i < n && HasId(source[i], idField, id) && key in FlatOf(source[i])
  {
    if n > 0 {
      MunchedCells(source, idField, n - 1, id, key);
      var e := source[n - 1];
      var id' := Index(e, idField).value;
      assert HasId(e, idField, id');
      SetCellsAt(MunchedUpTo(source, idField, n - 1).value, id', FlatOf(e), id, key);
    }
  }

  /** Cell `(id, key)` holds the flattened value from the last element with
      that id that has that key; later elements leave it alone. */
  lemma {:induction false} MunchedCell(source: seq<Value>, idField: string, n: nat, i: nat, id: Value, key: string)
    requires i < n <= |source|
    requires MunchedUpTo(source, idField, n).Ok?
    requires HasId(source[i], idField, id) && key in FlatOf(source[i])
    requires forall j :: i < j < n && HasId(source[j], idField, id) ==> key !in FlatOf(source[j])
    ensures var t := MunchedUpTo(source, idField, n).value;
      id in t && key in t[id] && t[id][key] == FlatOf(source[i])[key]
  {
    var e := source[n - 1];
    var id' := Index(e, idField).value;
    assert HasId(e, idField, id');
    if i < n - 1 {
      MunchedCell(source, idField, n - 1, i, id, key);
    }
    SetCellsAt(MunchedUpTo(source, idField, n - 1).value, id', FlatOf(e), id, key);
  }

  /** An element whose id is a scalar always gets its row: its flattened
      object holds at least the id column. */
  lemma FlatOfHasIdColumn(e: Value, idField: string, id: Value)
    requires HasId(e, idField, id) && Hashable(id)
    ensures idField in FlatOf(e)
  {
    var es := e.entries;
    GetIsLast(es, idField);
    var i :| 0 <= i < |es| && es[i].key == idField && es[i].val == id &&
             forall j :: i < j < |es| ==> es[j].key != idField;
    assert idField in Contribution(es[i]);
    FlattenedKeys(es, |es|, idField);
  }

  // ---------------------------------------------------------------------
  // read_pepperrc

  /** `[x.strip() for x in lines if x.startswith('SALTAPI')]` */
  function SaltApiLines(lines: seq<string>): (r: seq<string>)
    ensures |r| <= |lines|
  {
    if lines == [] then []
    else (if StartsWith(lines[0], "SALTAPI") then [Strip(lines[0])] else []) + SaltApiLines(lines[1..])
  }

  lemma {:induction false} SaltApiLinesAppend(a: seq<string>, b: seq<string>)
    ensures SaltApiLines(a + b) == SaltApiLines(a) + SaltApiLines(b)
  {
    if a == [] {
      assert a + b == b;
    } else {
      var head := if StartsWith(a[0], "SALTAPI") then [Strip(a[0])] else [];
      assert (a + b)[0] == a[0] && (a + b)[1..] == a[1..] + b;
      assert SaltApiLines(a + b) == head + SaltApiLines(a[1..] + b);
      SaltApiLinesAppend(a[1..], b);
      assert head + (SaltApiLines(a[1..]) + SaltApiLines(b))
          == (head + SaltApiLines(a[1..])) + SaltApiLines(b);
    }
  }

  /** Line `line` assigns `key` (the text before its first `=`). */
  predicate SetsKey(line: string, key: string)
  {
    SplitOnce(line, '=').Halves? && SplitOnce(line, '=').before == key
  }

  /** The settings after the first `n` kept lines: `var, value = line.split('=', 1)`
      raises ValueError on a line without `=`; a later key overwrites. */
  function PepperUpTo(content: seq<string>, n: nat): Result<map<string, string>>
    requires n <= |content|
  {
    if n == 0 then Ok(map[])
    else
      match PepperUpTo(content, n - 1)
      case Err(e) => Err(e)
      case Ok(m) =>
        match SplitOnce(content[n - 1], '=')
        case NoSeparator => Err(ValueError("not enough values to unpack"))
        case Halves(k, v) => Ok(m[k := v])
  }

  function Pepperrc(lines: seq<string>): Result<map<string, string>>
  {
    PepperUpTo(SaltApiLines(lines), |SaltApiLines(lines)|)
  }

  lemma {:induction false} PepperErrSticks(content: seq<string>, n: nat, m: nat)
    requires n <= m <= |content| && PepperUpTo(content, n).Err?
    ensures PepperUpTo(content, m) == PepperUpTo(content, n)
    decreases m
  {
    if m > n {
      PepperErrSticks(content, n, m - 1);
    }
  }

  /** `read_pepperrc` on the lines `readlines()` returns. */
  method ReadPepperrc(lines: seq<string>) returns (r: Result<map<string, string>>)
    ensures r == Pepperrc(lines)
  {
    var content := SaltApiLines(lines);
    var pepperrc: map<string, string> := map[];
    var i := 0;
    while i < |content|
      invariant 0 <= i <= |content|
      invariant PepperUpTo(content, i) == Ok(pepperrc)
    {
      var parts := SplitOnce(content[i], '=');
      if parts.NoSeparator? {
        PepperErrSticks(content, i + 1, |content|);
        return Err(ValueError("not enough values to unpack"));
      }
      assert PepperUpTo(content, i + 1) == Ok(pepperrc[parts.before := parts.after]);
      pepperrc := pepperrc[parts.before := parts.after];
      i := i + 1;
    }
    r := Ok(pepperrc);
  }

  lemma {:induction false} PepperFailsIffUpTo(content: seq<string>, n: nat)
    requires n <= |content|
    ensures PepperUpTo(content, n).Err? <==> exists i :: 0 <= i < n && '=' !in content[i]
  {
    if n > 0 {
      PepperFailsIffUpTo(content, n - 1);
      FindCharIsFirst(content[n - 1], '=');
      if '=' !in content[n - 1] {
        assert PepperUpTo(content, n).Err?;
      }
    }
  }

  lemma {:induction false} SaltApiLinesSpec(lines: seq<string>, x: string)
    ensures x in SaltApiLines(lines) <==> exists i :: 0 <= i < |lines| && StartsWith(lines[i], "SALTAPI") && x == Strip(lines[i])
  {
    if lines != [] {
      SaltApiLinesSpec(lines[1..], x);
      if exists i :: 0 <= i < |lines| && StartsWith(lines[i], "SALTAPI") && x == Strip(lines[i]) {
        var i :| 0 <= i < |lines| && StartsWith(lines[i], "SALTAPI") && x == Strip(lines[i]);
        if i > 0 {
          assert lines[1..][i - 1] == lines[i];
        }
      }
    }
  }

  /** Stripping removes only white space, so it never removes an `=`. */
  lemma StripKeepsEquals(x: string)
    ensures '=' in Strip(x) <==> '=' in x
  {
    var l := StripLeft(x);
    var r := StripRight(l);
    StripLeftIsSuffix(x);
    StripRightIsPrefix(l);
    StripLeftRemovesSpaces(x);
    StripRightRemovesSpaces(l);
    if '=' in x {
      var k :| 0 <= k < |x| && x[k] == '=';
      assert !IsSpace(x[k]);
      var i := |x| - |l|;
      assert l[k - i] == '=';
      assert r[k - i] == '=';
    }
    if '=' in r {
      var k :| 0 <= k < |r| && r[k] == '=';
      assert l[k] == '=';
      assert x[|x| - |l| + k] == '=';
    }
  }

  /** `read_pepperrc` fails exactly when some line starting with `SALTAPI`
      (tested before stripping) has no `=`. */
  lemma PepperFailsIff(lines: seq<string>)
    ensures Pepperrc(lines).Err? <==>
      exists i :: 0 <= i < |lines| && StartsWith(lines[i], "SALTAPI") && '=' !in lines[i]
  {
    var content := SaltApiLines(lines);
    PepperFailsIffUpTo(content, |content|);
    if exists k :: 0 <= k < |content| && '=' !in content[k] {
      var k :| 0 <= k < |content| && '=' !in content[k];
      SaltApiLinesSpec(lines, content[k]);
      var i :| 0 <= i < |lines| && StartsWith(lines[i], "SALTAPI") && content[k] == Strip(lines[i]);
      StripKeepsEquals(lines[i]);
    }
    if exists i :: 0 <= i < |lines| && StartsWith(lines[i], "SALTAPI") && '=' !in lines[i] {
      var i :| 0 <= i < |lines| && StartsWith(lines[i], "SALTAPI") && '=' !in lines[i];
      SaltApiLinesSpec(lines, Strip(lines[i]));
      StripKeepsEquals(lines[i]);
      var k :| 0 <= k < |content| && content[k] == Strip(lines[i]);
    }
  }

  /** One more kept line: it must hold `=`, and it sets its key. */
  lemma PepperStep(content: seq<string>, n: nat)
    requires 0 < n <= |content|
    requires PepperUpTo(content, n).Ok?
    ensures PepperUpTo(content, n - 1).Ok? && SplitOnce(content[n - 1], '=').Halves?
    ensures PepperUpTo(content, n).value ==
      PepperUpTo(content, n - 1).value[SplitOnce(content[n - 1], '=').before := SplitOnce(content[n - 1], '=').after]
  {
  }

  /** On success, a key is set exactly when some kept line names it before
      its first `=`. */
  lemma {:induction false} PepperKeys(content: seq<string>, n: nat, key: string)
    requires n <= |content|
    requires PepperUpTo(content, n).Ok?
    ensures key in PepperUpTo(content, n).value <==> exists i :: 0 <= i < n && SetsKey(content[i], key)
  {
    if n > 0 {
      PepperStep(content, n);
      PepperKeys(content, n - 1, key);
      var h := SplitOnce(content[n - 1], '=');
      if h.before == key {
        assert SetsKey(content[n - 1], key);
      } else {
        assert key in PepperUpTo(content, n).value <==> key in PepperUpTo(content, n - 1).value;
        assert !SetsKey(content[n - 1], key);
        assert (exists i :: 0 <= i < n && SetsKey(content[i], key)) <==>
               (exists i :: 0 <= i < n - 1 && SetsKey(content[i], key));
      }
    }
  }

  /** The value of a key is the text after the first `=` of the last line
      that sets it, so the value may itself contain `=`. */
  lemma {:induction false} PepperLastWins(content: seq<string>, n: nat, i: nat, key: string)
    requires i < n <= |content|
    requires PepperUpTo(content, n).Ok?
    requires SetsKey(content[i], key)
    requires forall j :: i < j < n ==> !SetsKey(content[j], key)
    ensures key in PepperUpTo(content, n).value
    ensures PepperUpTo(content, n).value[key] == SplitOnce(content[i], '=').after
  {
    if i < n - 1 {
      PepperLastWins(content, n - 1, i, key);
    }
  }
}
