// Building a test group: create, add, resize, and one thread per test.
module TestGroup {
  import opened Words
  import opened RoundBarrier

  const INT_LIMIT: nat := 0x8000_0000

  // fun and data stand for the function and data pointers.
  datatype TestAux = TestAux(fun: nat, data: nat, status: Status)

  // A worker's argument: its id and its test, as a list and a position in it.
  datatype ThreadAux = ThreadAux(tid: nat, list: array<TestAux>, test: nat)

  // ----- the group as a value

  datatype Spec = Spec(size: nat, tests: seq<TestAux>)

  datatype BuildOp = AddOp(fun: nat, data: nat, copies: nat) | ResizeOp(size: nat)

  function Copies(fun: nat, data: nat, n: nat): (tests: seq<TestAux>)
    ensures |tests| == n && forall i :: 0 <= i < n ==> tests[i].fun == fun && tests[i].data == data
    ensures forall i :: 0 <= i < n ==> tests[i].status == NotStarted
  {
    seq(n, _ => TestAux(fun, data, NotStarted))
  }

  function Apply(g: Spec, op: BuildOp): Spec {
    match op
    case AddOp(fun, data, n) =>
      if g.size < n + |g.tests| then g else g.(tests := g.tests + Copies(fun, data, n))
    case ResizeOp(size) => g.(size := size)
  }

  function ApplyAll(g: Spec, ops: seq<BuildOp>): Spec {
    if |ops| == 0 then g else Apply(ApplyAll(g, ops[..|ops| - 1]), ops[|ops| - 1])
  }

  // The size after the last resize.
  function SizeAfter(size: nat, ops: seq<BuildOp>): nat {
    if |ops| == 0 then size
    else match ops[|ops| - 1]
         case ResizeOp(n) => n
         case AddOp(_, _, _) => SizeAfter(size, ops[..|ops| - 1])
  }

  ghost predicate NonShrinking(size: nat, ops: seq<BuildOp>) {
    forall i :: 0 <= i < |ops| && ops[i].ResizeOp? ==> SizeAfter(size, ops[..i]) <= ops[i].size
  }

  // The adds that fit, in order: an add fits when the tests already accepted leave it room.
  function AcceptedAdds(size: nat, ops: seq<BuildOp>): seq<BuildOp> {
    if |ops| == 0 then []
    else
      var op, before := ops[|ops| - 1], AcceptedAdds(size, ops[..|ops| - 1]);
      if op.AddOp? && TotalCopies(before) + op.copies <= SizeAfter(size, ops[..|ops| - 1])
      then before + [op] else before
  }

  function TotalCopies(adds: seq<BuildOp>): nat {
    if |adds| == 0 then 0
    else TotalCopies(adds[..|adds| - 1])
         + (if adds[|adds| - 1].AddOp? then adds[|adds| - 1].copies else 0)
  }

  // The tests hold the adds one after the other: the copies of adds[k] follow those of the adds
  // before it, and each is that add's function and data, not started.
  ghost predicate HoldAdds(tests: seq<TestAux>, adds: seq<BuildOp>) {
    && |tests| == TotalCopies(adds)
    && forall k :: 0 <= k < |adds| ==> adds[k].AddOp? && HoldAdd(tests, TotalCopies(adds[..k]), adds[k])
  }

  ghost predicate HoldAdd(tests: seq<TestAux>, from: nat, op: BuildOp)
    requires op.AddOp?
  {
    && from + op.copies <= |tests|
    && forall i :: from <= i < from + op.copies ==>
         tests[i].fun == op.fun && tests[i].data == op.data && tests[i].status == NotStarted
  }

  lemma HoldOneMore(tests: seq<TestAux>, adds: seq<BuildOp>, op: BuildOp)
    requires HoldAdds(tests, adds) && op.AddOp?
    ensures HoldAdds(tests + Copies(op.fun, op.data, op.copies), adds + [op])
  {
    var more := adds + [op];
    assert more[..|adds|] == adds;
    forall k | 0 <= k < |more|
      ensures more[k].AddOp? && HoldAdd(tests + Copies(op.fun, op.data, op.copies), TotalCopies(more[..k]), more[k])
    {
      if k < |adds| {
        assert more[..k] == adds[..k];
        assert HoldAdd(tests, TotalCopies(adds[..k]), adds[k]);
      }
    }
  }

  // Over any sequence of adds and non-shrinking resizes the live tests are the accepted adds, in
  // order, each copy with its add's function and data; and they fit.
  lemma {:induction false} LiveIsAcceptedAdds(size: nat, ops: seq<BuildOp>)
    requires NonShrinking(size, ops)
    ensures var g := ApplyAll(Spec(size, []), ops);
            && g.size == SizeAfter(size, ops)
            && HoldAdds(g.tests, AcceptedAdds(size, ops))
            && |g.tests| <= g.size
  {
    if |ops| > 0 {
      var front, op := ops[..|ops| - 1], ops[|ops| - 1];
      forall i | 0 <= i < |front| && front[i].ResizeOp?
        ensures SizeAfter(size, front[..i]) <= front[i].size
      {
        assert front[..i] == ops[..i];
      }
      LiveIsAcceptedAdds(size, front);
      var before := AcceptedAdds(size, front);
      if op.AddOp? { HoldOneMore(ApplyAll(Spec(size, []), front).tests, before, op); }
      if op.ResizeOp? { assert SizeAfter(size, ops[..|ops| - 1]) <= op.size; }
    }
  }

  // The size guard of test_group_add decides whether the copies fit exactly when the 64-bit sum in
  // it does not wrap.
  lemma GuardExactUnlessWrapped(size: nat, numTest: nat, copies: nat)
    requires numTest <= size < INT_LIMIT && copies < TWO_64
    ensures (size < U64(copies + numTest) <==> size < copies + numTest) <==> copies + numTest < TWO_64
  {
    if copies + numTest >= TWO_64 {
      U64Period(copies + numTest);
      assert U64(copies + numTest - TWO_64) == copies + numTest - TWO_64;
    }
  }

  datatype AddOutcome = Added | Rejected | Overrun

  // ----- the group as the source keeps it

  class Group {
    var groupSize: nat
    var numTest: nat
    var nThreads: nat
    var testList: array<TestAux>
    var threadList: array<ThreadAux>

    ghost predicate Valid()
      reads this
    {
      testList.Length == groupSize < INT_LIMIT && numTest <= groupSize
    }

    ghost function Model(): Spec
      reads this, testList
      requires Valid()
    {
      Spec(groupSize, testList[..numTest])
    }

    constructor (size: nat)
      requires size < INT_LIMIT
      ensures Valid() && Model() == Spec(size, []) && fresh(testList)
    {
      groupSize, numTest, nThreads := size, 0, 0;
      testList := new TestAux[size](_ => TestAux(0, 0, NotStarted));
      threadList := new ThreadAux[0];
    }

    // test_group_add. When the copies fit they are all appended; when the guard refuses them nothing
    // changes. When num_copy + num_test wraps a size_t the guard is passed although they do not fit,
    // and the fill reaches the end of the list: the model stops at the first write beyond it.
    method Add(fun: nat, data: nat, copies: nat) returns (outcome: AddOutcome)
      requires Valid() && copies < TWO_64
      modifies `numTest, testList
      ensures Valid()
      ensures outcome == Added <==> old(numTest) + copies <= groupSize
      ensures outcome == Overrun <==> old(numTest) + copies >= TWO_64
      ensures numTest == old(numTest) + if outcome == Added then copies else 0
      ensures testList[..old(numTest)] == old(testList[..numTest])
      ensures outcome == Added ==> forall i :: old(numTest) <= i < numTest ==>
                testList[i].fun == fun && testList[i].data == data && testList[i].status == NotStarted
      ensures outcome == Overrun ==> forall i :: numTest <= i < groupSize ==>
                testList[i].fun == fun && testList[i].data == data && testList[i].status == NotStarted
      ensures outcome == Rejected ==> testList[..] == old(testList[..])
      ensures outcome != Overrun ==> Model() == Apply(old(Model()), AddOp(fun, data, copies))
    {
      GuardExactUnlessWrapped(groupSize, numTest, copies);
      if groupSize < U64(copies + numTest) { return Rejected; }
      var count := numTest;
      for i := 0 to copies
        modifies testList
        invariant count + i <= testList.Length
        invariant testList[..count] == old(testList[..numTest])
        invariant forall j :: count <= j < count + i ==> testList[j] == TestAux(fun, data, NotStarted)
      {
        if count + i == testList.Length { return Overrun; }
        testList[count + i] := TestAux(fun, data, NotStarted);
      }
      numTest := count + copies;
      assert testList[..numTest] == old(testList[..numTest]) + Copies(fun, data, copies);
      return Added;
    }

    // test_group_resize: the entries that fit are kept. A size below num_test is accepted too, and
    // only then is the group left with more tests than entries.
    method Resize(size: nat)
      requires Valid() && size < INT_LIMIT
      modifies `groupSize, `testList
      ensures testList.Length == groupSize == size && fresh(testList) && numTest == old(numTest)
      ensures forall i :: 0 <= i < size && i < old(groupSize) ==> testList[i] == old(testList[i])
      ensures Valid() <==> old(numTest) <= size
      ensures Valid() ==> Model() == Apply(old(Model()), ResizeOp(size))
    {
      var list := testList;
      var resized := new TestAux[size](i reads list => if 0 <= i < list.Length then list[i] else TestAux(0, 0, NotStarted));
      groupSize := size;
      testList := resized;
      assert numTest <= size ==> testList[..numTest] == old(testList[..numTest]);
    }

    // test_group_thread_create's fill loop: thread i gets id i and the test at position i of the
    // present list, so threads and live tests correspond one to one.
    method ThreadCreate()
      requires Valid()
      modifies `nThreads, `threadList
      ensures Valid() && Model() == old(Model())
      ensures nThreads == threadList.Length == numTest && fresh(threadList)
      ensures forall i :: 0 <= i < nThreads ==> threadList[i] == ThreadAux(i, testList, i)
    {
      nThreads := numTest;
      var count, list := numTest, testList;
      var threads := new ThreadAux[count](_ => ThreadAux(0, list, 0));
      for i := 0 to count
        modifies threads
        invariant forall j :: 0 <= j < i ==> threads[j] == ThreadAux(j, list, j)
      {
        threads[i] := ThreadAux(i, list, i);
      }
      threadList := threads;
    }

    // Any sequence of adds and non-shrinking resizes, then the threads.
    method Build(ops: seq<BuildOp>, ghost size: nat)
      requires Valid() && Model() == Spec(size, []) && NonShrinking(size, ops)
      requires forall i :: 0 <= i < |ops| ==>
                 if ops[i].ResizeOp? then ops[i].size < INT_LIMIT else ops[i].copies < TWO_64 - INT_LIMIT
      modifies this, testList
      ensures Valid() && groupSize == SizeAfter(size, ops)
      ensures HoldAdds(testList[..numTest], AcceptedAdds(size, ops))
      ensures nThreads == threadList.Length == numTest
      ensures forall i :: 0 <= i < nThreads ==> threadList[i] == ThreadAux(i, testList, i)
    {
      for k := 0 to |ops|
        invariant Valid() && Model() == ApplyAll(Spec(size, []), ops[..k])
        invariant testList == old(testList) || fresh(testList)
      {
        assert ops[..k + 1][..k] == ops[..k];
        PrefixNonShrinking(size, ops, k);
        LiveIsAcceptedAdds(size, ops[..k]);
        match ops[k]
        case AddOp(fun, data, n) => var _ := Add(fun, data, n);
        case ResizeOp(n) => Resize(n);
      }
      assert ops[..|ops|] == ops;
      LiveIsAcceptedAdds(size, ops);
      ThreadCreate();
    }
  }

  lemma PrefixNonShrinking(size: nat, ops: seq<BuildOp>, k: nat)
    requires NonShrinking(size, ops) && k <= |ops|
    ensures NonShrinking(size, ops[..k])
  {
    forall i | 0 <= i < k && ops[i].ResizeOp?
      ensures SizeAfter(size, ops[..k][..i]) <= ops[i].size
    {
      assert ops[..k][..i] == ops[..i];
    }
  }

  // A resize to nothing after one accepted add leaves a group whose test count exceeds its list.
  method ShrinkBelowTests(fun: nat, data: nat) returns (g: Group)
    ensures fresh(g) && g.groupSize == 0 && g.numTest == 1 && !g.Valid()
  {
    g := new Group(1);
    var _ := g.Add(fun, data, 1);
    g.Resize(0);
  }
}
