/** The two per-record steps of the program: cutting a raw object down to
    the selected fields while loading, and turning a selected record into
    the flat record that `transform_data` returns. */
module Records {
  import opened Json
  import opened Balance

  /** The fields `get_data` keeps, in the order the program lists them. */
  const Fields: seq<string> := ["name", "age", "isActive", "favoriteFruit", "balance"]

  /** `{key: obj[key] for key in keys if key in obj}`. */
  function Restrict(obj: Record, keys: seq<string>): (r: Record)
    ensures forall k :: k in r <==> k in obj && k in keys
    ensures forall k :: k in r ==> r[k] == obj[k]
    ensures |r| <= |keys|
  {
    if keys == [] then map[]
    else
      var rest := Restrict(obj, keys[1..]);
      if keys[0] in obj then rest[keys[0] := obj[keys[0]]] else rest
  }

  /** The record `get_data` stores for one object read from the file. */
  function Project(obj: Record): Record
  {
    map k | k in obj && k in Fields :: obj[k]
  }

  /** The projection is the comprehension over the field list: it keeps
      exactly the listed fields the object has, each with its own value. */
  lemma ProjectSpec(obj: Record)
    ensures Project(obj) == Restrict(obj, Fields)
    ensures forall k :: k in Project(obj) <==> k in obj && k in Fields
    ensures forall k :: k in Project(obj) ==> Project(obj)[k] == obj[k]
    ensures |Project(obj)| <= |Fields|
  {
  }

  /** The objects the reader yields before the first line that raises:
      the loading loop stops there and keeps what it already appended. */
  function ReadRecords(lines: seq<Line>): (r: seq<Record>)
    ensures |r| <= |lines|
    ensures forall i :: 0 <= i < |r| ==> lines[i] == Obj(r[i])
    ensures |r| < |lines| ==> lines[|r|].Bad?
  {
    if lines == [] || lines[0].Bad? then [] else [lines[0].fields] + ReadRecords(lines[1..])
  }

  /** The reader yields exactly the objects before the first bad line. */
  lemma ReadRecordsLength(lines: seq<Line>, n: int)
    requires 0 <= n <= |lines|
    requires forall j :: 0 <= j < n ==> lines[j].Obj?
    requires n == |lines| || lines[n].Bad?
    ensures |ReadRecords(lines)| == n
  {
  }

  /** One projected record per object, in order. */
  function ProjectAll(objs: seq<Record>): (r: seq<Record>)
    ensures |r| == |objs|
    ensures forall i :: 0 <= i < |r| ==> r[i] == Project(objs[i])
  {
    if objs == [] then [] else [Project(objs[0])] + ProjectAll(objs[1..])
  }

  /** The dict `transform_data` builds for one record. `balance` holds the
      cleaned string that the program hands to `float`. */
  datatype Flat = Flat(
    fullName: string,
    age: Value,
    isActive: Value,
    favoriteFruit: Value,
    balance: string)

  /** `d[k]` is present and is a string. */
  predicate HasText(d: Record, k: string)
  {
    k in d && d[k].Str?
  }

  /** Every lookup `transform_data` performs on `d` succeeds. */
  predicate Normalizable(d: Record)
  {
    && "name" in d && d["name"].Object?
    && HasText(d["name"].fields, "first") && HasText(d["name"].fields, "last")
    && "age" in d && "isActive" in d && "favoriteFruit" in d
    && HasText(d, "balance")
  }

  /** `e` truly describes a defect of `d`: the key it names is missing, or
      the value it names has a type the operation applied to it rejects. */
  predicate Explains(d: Record, e: Failure)
  {
    match e
    case KeyError(k) =>
      || (k in Fields && k !in d)
      || (k in ["first", "last"] && "name" in d && d["name"].Object? && k !in d["name"].fields)
    case TypeError(k) =>
      || (k == "name" && "name" in d && !d["name"].Object?)
      || (k in ["first", "last"] && "name" in d && d["name"].Object?
          && k in d["name"].fields && !d["name"].fields[k].Str?)
    case AttributeError(k) =>
      k == "balance" && "balance" in d && !d["balance"].Str?
  }

  /** The value of `d['name'][k]`, failing as Python does: a `name` that is
      not a dict cannot be subscripted, a missing key raises `KeyError`, and
      a value that is not a string cannot be joined with `+`. */
  function NamePart(d: Record, k: string): Result<string>
    requires "name" in d
  {
    if !d["name"].Object? then Err(TypeError("name"))
    else if k !in d["name"].fields then Err(KeyError(k))
    else if !d["name"].fields[k].Str? then Err(TypeError(k))
    else Ok(d["name"].fields[k].s)
  }

  /** The body of the `transform_data` loop for one record. Lookups happen
      in the order Python evaluates the dict display, so the first failing
      one is the one reported. */
  function Normalize(d: Record): Result<Flat>
  {
    if "name" !in d then Err(KeyError("name"))
    else match NamePart(d, "first")
      case Err(e) => Err(e)
      case Ok(first) =>
        match NamePart(d, "last")
        case Err(e) => Err(e)
        case Ok(last) =>
          if "age" !in d then Err(KeyError("age"))
          else if "isActive" !in d then Err(KeyError("isActive"))
          else if "favoriteFruit" !in d then Err(KeyError("favoriteFruit"))
          else if "balance" !in d then Err(KeyError("balance"))
          else if !d["balance"].Str? then Err(AttributeError("balance"))
          else Ok(Flat(first + " " + last, d["age"], d["isActive"], d["favoriteFruit"],
                       CleanBalance(d["balance"].s)))
  }

  /** Flattening succeeds exactly when every lookup does; a failure names a
      real defect of the record; a success carries the joined name, the
      three passed-through values and the cleaned balance. */
  lemma NormalizeSpec(d: Record)
    ensures Normalize(d).Ok? <==> Normalizable(d)
    ensures Normalize(d).Err? ==> Explains(d, Normalize(d).error)
    ensures "name" !in d ==> Normalize(d) == Err(KeyError("name"))
    ensures Normalize(d).Ok? ==>
              var r, name := Normalize(d).value, d["name"].fields;
              && r.fullName == name["first"].s + " " + name["last"].s
              && r.age == d["age"]
              && r.isActive == d["isActive"]
              && r.favoriteFruit == d["favoriteFruit"]
              && r.balance == CleanBalance(d["balance"].s)
  {
  }

  /** A loop that applies `f` to each element in order and stops at the
      first failure: the list of results, or the failure of the first
      element `f` rejects. */
  function Collect<A, B>(f: A -> Result<B>, xs: seq<A>): (r: Result<seq<B>>)
    ensures r.Ok? <==> forall i :: 0 <= i < |xs| ==> f(xs[i]).Ok?
    ensures r.Ok? ==> |r.value| == |xs|
                      && forall i :: 0 <= i < |xs| ==> r.value[i] == f(xs[i]).value
    ensures r.Err? ==> exists k :: FirstFailure(f, xs, k) && r.error == f(xs[k]).error
    ensures forall k :: FirstFailure(f, xs, k) ==> r == Err(f(xs[k]).error)
  {
    if xs == [] then Ok([])
    else
      assert forall i :: 0 < i < |xs| ==> xs[i] == xs[1..][i - 1];
      match f(xs[0])
      case Err(e) =>
        assert FirstFailure(f, xs, 0);
        Err(e)
      case Ok(y) =>
        match Collect(f, xs[1..])
        case Err(e) =>
          ghost var k :| FirstFailure(f, xs[1..], k) && e == f(xs[1..][k]).error;
          assert FirstFailure(f, xs, k + 1);
          Err(e)
        case Ok(ys) => Ok([y] + ys)
  }

  /** Collecting one more element: an earlier failure stands, otherwise
      the new element's failure is reported or its value appended. */
  lemma CollectSnoc<A, B>(f: A -> Result<B>, xs: seq<A>, x: A)
    ensures Collect(f, xs + [x]) ==
              if Collect(f, xs).Err? then Collect(f, xs)
              else if f(x).Err? then Err(f(x).error)
              else Ok(Collect(f, xs).value + [f(x).value])
  {
    CollectConcat(f, xs, [x]);
    var r := Collect(f, [x]);
    assert [x][0] == x;
    if f(x).Err? {
      assert FirstFailure(f, [x], 0);
    } else {
      assert r.Ok? && r.value == [f(x).value];
    }
  }

  /** A failure within a prefix is the failure of the whole sequence. */
  lemma CollectPrefixErr<A, B>(f: A -> Result<B>, xs: seq<A>, i: int)
    requires 0 <= i <= |xs| && Collect(f, xs[..i]).Err?
    ensures Collect(f, xs) == Collect(f, xs[..i])
  {
    assert xs[..i] + xs[i..] == xs;
    CollectConcat(f, xs[..i], xs[i..]);
  }

  /** `xs[k]` is the first element that `f` rejects. */
  ghost predicate FirstFailure<A, B>(f: A -> Result<B>, xs: seq<A>, k: int)
  {
    0 <= k < |xs| && f(xs[k]).Err? && forall j :: 0 <= j < k ==> f(xs[j]).Ok?
  }

  /** The whole `transform_data` loop: one flat record per record, in
      order, or the failure of the first record that cannot be flattened. */
  function NormalizeAll(ds: seq<Record>): (r: Result<seq<Flat>>)
    ensures r == Collect(Normalize, ds)
  {
    Collect(Normalize, ds)
  }

  /** Projecting a stored record again changes nothing. */
  lemma ProjectIdempotent(obj: Record)
    ensures Project(Project(obj)) == Project(obj)
  {
  }

  /** A key outside the field list never reaches the stored record. */
  lemma ProjectIgnoresUnlisted(obj: Record, k: string, v: Value)
    requires k !in Fields
    ensures Project(obj[k := v]) == Project(obj)
  {
  }

  /** `d1` and `d2` agree on key `k`. */
  predicate SameAt(d1: Record, d2: Record, k: string)
  {
    (k in d1 <==> k in d2) && (k in d1 ==> d1[k] == d2[k])
  }

  /** Records that agree on the listed fields flatten alike. */
  lemma NormalizeReadsFieldsOnly(d1: Record, d2: Record)
    requires SameAt(d1, d2, "name") && SameAt(d1, d2, "age") && SameAt(d1, d2, "isActive")
    requires SameAt(d1, d2, "favoriteFruit") && SameAt(d1, d2, "balance")
    ensures Normalize(d1) == Normalize(d2)
  {
    if "name" in d1 {
      assert NamePart(d1, "first") == NamePart(d2, "first");
      assert NamePart(d1, "last") == NamePart(d2, "last");
    }
  }

  /** Flattening reads listed fields only, so flattening the stored record
      is flattening the object it was read from. */
  lemma NormalizeOfProject(obj: Record)
    ensures Normalize(Project(obj)) == Normalize(obj)
  {
    var p := Project(obj);
    ProjectSpec(obj);
    assert Fields[0] == "name" && Fields[1] == "age" && Fields[2] == "isActive";
    assert Fields[3] == "favoriteFruit" && Fields[4] == "balance";
    assert SameAt(p, obj, Fields[0]) && SameAt(p, obj, Fields[1]) && SameAt(p, obj, Fields[2]);
    assert SameAt(p, obj, Fields[3]) && SameAt(p, obj, Fields[4]);
    NormalizeReadsFieldsOnly(p, obj);
  }

  /** The full name splits back at its single inserted space into the first
      and the last name. */
  lemma FullNameSplits(d: Record)
    requires Normalizable(d)
    ensures var n, first, last := Normalize(d).value.fullName,
                                   d["name"].fields["first"].s, d["name"].fields["last"].s;
            && |n| == |first| + 1 + |last|
            && n[..|first|] == first && n[|first|] == ' ' && n[|first| + 1..] == last
  {
    NormalizeSpec(d);
  }

  /** Collecting over two pieces in turn is collecting over their
      concatenation: the results keep their order, and the first piece's
      failure comes before anything from the second. */
  lemma {:induction false} CollectConcat<A, B>(f: A -> Result<B>, a: seq<A>, b: seq<A>)
    ensures Collect(f, a + b) ==
              if Collect(f, a).Err? then Collect(f, a)
              else if Collect(f, b).Err? then Collect(f, b)
              else Ok(Collect(f, a).value + Collect(f, b).value)
  {
    if a == [] {
      assert a + b == b;
      assert Collect(f, b).Ok? ==> [] + Collect(f, b).value == Collect(f, b).value;
    } else {
      assert (a + b)[0] == a[0] && (a + b)[1..] == a[1..] + b;
      CollectConcat(f, a[1..], b);
      if f(a[0]).Ok? && Collect(f, a[1..]).Ok? && Collect(f, b).Ok? {
        assert [f(a[0]).value] + (Collect(f, a[1..]).value + Collect(f, b).value)
            == ([f(a[0]).value] + Collect(f, a[1..]).value) + Collect(f, b).value;
      }
    }
  }
}
