/** The `FruitSalad` object: a list of selected records loaded on demand,
    and the flattening of that list. */
module Salad {
  import opened Json
  import opened Records

  /** What `self.data` holds after one call of `get_data` on a file whose
      lines are `lines`: an empty list is (re)loaded, a non-empty one is
      kept as it is. */
  function Loaded(data: seq<Record>, lines: seq<Line>): seq<Record>
  {
    if data == [] then ProjectAll(ReadRecords(lines)) else data
  }

  class FruitSalad {
    /** `self.data`: the selected records loaded so far. */
    var data: seq<Record>

    constructor ()
      ensures data == []
    {
      data := [];
    }

    /** `get_data`: when nothing is loaded yet, appends one projected
        record per object the reader yields, stopping at the first line
        that raises; returns the list. */
    method GetData(lines: seq<Line>) returns (r: seq<Record>)
      modifies this
      ensures old(data) != [] ==> data == old(data)
      ensures old(data) == [] ==> data == ProjectAll(ReadRecords(lines))
      ensures data == Loaded(old(data), lines)
      ensures r == data
    {
      if data == [] {
        var i := 0;
        while i < |lines| && lines[i].Obj?
          invariant 0 <= i <= |lines|
          invariant forall j :: 0 <= j < i ==> lines[j].Obj?
          invariant |data| == i
          invariant forall j :: 0 <= j < i ==> data[j] == Project(lines[j].fields)
        {
          data := data + [Project(lines[i].fields)];
          i := i + 1;
        }
        ghost var read := ReadRecords(lines);
        ReadRecordsLength(lines, i);
        assert forall j :: 0 <= j < i ==> read[j] == lines[j].fields;
        assert data == ProjectAll(read);
      }
      r := data;
    }

    /** `transform_data`: loads through `get_data`, then flattens every
        loaded record in order; the first record that cannot be flattened
        ends the loop with its failure. */
    method TransformData(lines: seq<Line>) returns (res: Result<seq<Flat>>)
      modifies this
      ensures data == Loaded(old(data), lines)
      ensures res == NormalizeAll(data)
    {
      var d := GetData(lines);
      var result: seq<Flat> := [];
      var i := 0;
      assert d[..0] == [];
      while i < |d|
        invariant 0 <= i <= |d|
        invariant Collect(Normalize, d[..i]) == Ok(result)
        invariant data == d
      {
        var sub := Normalize(d[i]);
        assert d[..i + 1] == d[..i] + [d[i]];
        CollectSnoc(Normalize, d[..i], d[i]);
        if sub.Err? {
          CollectPrefixErr(Normalize, d, i + 1);
          return Err(sub.error);
        }
        result := result + [sub.value];
        i := i + 1;
      }
      assert d[..i] == d;
      res := Ok(result);
    }
  }

  /** Once a call has loaded something, every later call keeps it, whatever
      the file then holds. */
  lemma LoadedIsKept(data: seq<Record>, first: seq<Line>, later: seq<Line>)
    requires Loaded(data, first) != []
    ensures Loaded(Loaded(data, first), later) == Loaded(data, first)
  {
  }

  /** Two calls on the same file leave the same list as one call. */
  lemma LoadedIdempotent(data: seq<Record>, lines: seq<Line>)
    ensures Loaded(Loaded(data, lines), lines) == Loaded(data, lines)
  {
  }

  /** A load that yields nothing (an empty file, a file that cannot be
      opened, a first line that raises) caches nothing: the next call loads
      again. */
  lemma EmptyLoadIsRetried(first: seq<Line>, later: seq<Line>)
    requires first == [] || first[0].Bad?
    ensures Loaded([], first) == []
    ensures Loaded(Loaded([], first), later) == ProjectAll(ReadRecords(later))
  {
  }

  /** A fresh load is empty exactly when the reader yields nothing. */
  lemma LoadedEmptyIff(lines: seq<Line>)
    ensures Loaded([], lines) == [] <==> (lines == [] || lines[0].Bad?)
  {
    if lines != [] && lines[0].Obj? {
      assert ReadRecords(lines)[0] == lines[0].fields;
    }
  }

  /** Each loaded record is the projection of the object on the same line,
      and every earlier line was an object. */
  lemma LoadedIsProjection(lines: seq<Line>, i: int)
    requires 0 <= i < |Loaded([], lines)|
    ensures i < |lines| && lines[i].Obj?
    ensures Loaded([], lines)[i] == Project(lines[i].fields)
    ensures forall k :: k in Loaded([], lines)[i] ==> k in Fields && k in lines[i].fields
  {
  }
}
