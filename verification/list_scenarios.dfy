/** The List assignments of tests/test_list.py, each stated as a fact about
    the model. */
module ListScenarios {
  import opened Outcomes
  import opened Vectors
  import opened Values
  import opened Kinds

  /** The class with one Integer property `a`. */
  function HasIntA(): Schema {
    Schema("HasIntA", map["a" := IntegerKind])
  }

  function Ints(xs: seq<int>): seq<Raw> {
    seq(|xs|, i requires 0 <= i < |xs| => Int(xs[i]))
  }

  function IntValues(xs: seq<int>): seq<Value> {
    seq(|xs|, i requires 0 <= i < |xs| => IntValue(xs[i]))
  }

  /** A list of Integer elements takes the integers of a list or a tuple, in order. */
  lemma IntegerList(xs: seq<int>, root: real -> real)
    requires IsSquareRoot(root)
    ensures Coerce(Sequence(ListForm, Ints(xs)), ListKind(IntegerKind), root) == Ok(ListValue(IntValues(xs)))
    ensures Coerce(Sequence(TupleForm, Ints(xs)), ListKind(IntegerKind), root) == Ok(ListValue(IntValues(xs)))
  {
    var r := CoerceEach(Ints(xs), IntegerKind, root);
    assert r.Ok?;
    assert r.value == IntValues(xs);
    ContainerIsIrrelevant(Ints(xs), ListKind(IntegerKind), root);
  }

  lemma IntegerListLiterals(root: real -> real)
    requires IsSquareRoot(root)
    ensures Coerce(Sequence(ListForm, [Int(1), Int(2), Int(3)]), ListKind(IntegerKind), root)
         == Ok(ListValue([IntValue(1), IntValue(2), IntValue(3)]))
    ensures Coerce(Sequence(TupleForm, [Int(1), Int(2), Int(3)]), ListKind(IntegerKind), root)
         == Ok(ListValue([IntValue(1), IntValue(2), IntValue(3)]))
  {
    IntegerList([1, 2, 3], root);
    assert Ints([1, 2, 3]) == [Int(1), Int(2), Int(3)];
    assert IntValues([1, 2, 3]) == [IntValue(1), IntValue(2), IntValue(3)];
  }

  /** A tuple of existing HasIntA instances is kept as it is. */
  lemma InstanceList(root: real -> real)
    requires IsSquareRoot(root)
    ensures var blank := Record("HasIntA", map[]);
      Coerce(Sequence(TupleForm, [Existing(blank), Existing(blank)]), ListKind(RecordKind(HasIntA())), root)
      == Ok(ListValue([RecordValue(blank), RecordValue(blank)]))
  {
    var blank := Record("HasIntA", map[]);
    var items := [Existing(blank), Existing(blank)];
    var r := CoerceEach(items, RecordKind(HasIntA()), root);
    assert Coerce(items[0], RecordKind(HasIntA()), root) == Ok(RecordValue(blank));
    assert r.value == [RecordValue(blank), RecordValue(blank)];
  }

  /** A mapping {'a': n} builds a new HasIntA whose `a` is n. */
  lemma MappingBuildsInstance(n: int, root: real -> real)
    requires IsSquareRoot(root)
    ensures Coerce(Mapping([("a", Int(n))]), RecordKind(HasIntA()), root)
         == Ok(RecordValue(Record("HasIntA", map["a" := IntValue(n)])))
  {
    var entries := [("a", Int(n))];
    assert entries[..0] == [];
    var f := CoerceFields(entries, HasIntA(), root);
    assert f.value == map["a" := IntValue(n)];
  }

  /** A list of mappings builds one new instance per mapping. */
  lemma MappingList(root: real -> real)
    requires IsSquareRoot(root)
    ensures Coerce(Sequence(ListForm, [Mapping([("a", Int(1))]), Mapping([("a", Int(2))]), Mapping([("a", Int(3))])]),
                   ListKind(RecordKind(HasIntA())), root)
         == Ok(ListValue([RecordValue(Record("HasIntA", map["a" := IntValue(1)])),
                          RecordValue(Record("HasIntA", map["a" := IntValue(2)])),
                          RecordValue(Record("HasIntA", map["a" := IntValue(3)]))]))
  {
    MappingBuildsInstance(1, root);
    MappingBuildsInstance(2, root);
    MappingBuildsInstance(3, root);
    var items := [Mapping([("a", Int(1))]), Mapping([("a", Int(2))]), Mapping([("a", Int(3))])];
    var r := CoerceEach(items, RecordKind(HasIntA()), root);
    assert r.Ok?;
    assert r.value == [RecordValue(Record("HasIntA", map["a" := IntValue(1)])),
                       RecordValue(Record("HasIntA", map["a" := IntValue(2)])),
                       RecordValue(Record("HasIntA", map["a" := IntValue(3)]))];
  }

  /** A name written twice in a dict literal keeps its last value only:
      {'a': 'x', 'a': 1} builds HasIntA(a=1), and 'x' is never validated. */
  lemma RepeatedNameKeepsLast(root: real -> real)
    requires IsSquareRoot(root)
    ensures Coerce(Mapping([("a", Text("x")), ("a", Int(1))]), RecordKind(HasIntA()), root)
         == Ok(RecordValue(Record("HasIntA", map["a" := IntValue(1)])))
  {
    var entries := [("a", Text("x")), ("a", Int(1))];
    assert entries[1].0 == entries[0].0;
    assert !IsLastFor(entries, 0);
    assert entries[1..] == [("a", Int(1))];
    assert entries[1..][1..] == [];
    var f := CoerceFields(entries, HasIntA(), root);
    assert f.value == map["a" := IntValue(1)];
  }
}
