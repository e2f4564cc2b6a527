/** Names the conductor derives from an execution number: the result
    collections of an execution and the id of its deadline task. */
module Names {

  const ResultPrefix: string := "P_"
  const ResultInfix: string := "_RESULT_"
  const TaskPrefix: string := "Pregel_Task_"

  /** Name of the collection that receives the results of `collection`
      for execution `executionNumber`. */
  function ResultCollectionName(collection: string, executionNumber: string): (r: string)
    ensures |r| == |ResultPrefix| + |executionNumber| + |ResultInfix| + |collection|
    ensures r[..|ResultPrefix|] == ResultPrefix
    ensures r[|ResultPrefix|..|ResultPrefix| + |executionNumber|] == executionNumber
    ensures r[|r| - |collection|..] == collection
  {
    ResultPrefix + executionNumber + ResultInfix + collection
  }

  /** Id under which the deadline task of an execution is registered. */
  function TaskId(executionNumber: string): (r: string)
    ensures |r| == |TaskPrefix| + |executionNumber|
    ensures r[|TaskPrefix|..] == executionNumber
  {
    TaskPrefix + executionNumber
  }

  /** Execution numbers are document keys the store generates: decimal digits. */
  predicate IsDecimal(s: string)
  {
    forall i :: 0 <= i < |s| ==> '0' <= s[i] <= '9'
  }

  /** Within one execution, distinct collections get distinct result collections. */
  lemma ResultNamesDistinct(n: string, c1: string, c2: string)
    ensures ResultCollectionName(c1, n) == ResultCollectionName(c2, n) <==> c1 == c2
  {
  }

  /** Across executions whose numbers are decimal, the result name determines
      both the execution and the collection. */
  lemma ResultNameInjective(c1: string, n1: string, c2: string, n2: string)
    requires IsDecimal(n1) && IsDecimal(n2)
    requires ResultCollectionName(c1, n1) == ResultCollectionName(c2, n2)
    ensures n1 == n2 && c1 == c2
  {
    var r1, r2 := ResultCollectionName(c1, n1), ResultCollectionName(c2, n2);
    assert r1 == ResultPrefix + n1 + ResultInfix + c1;
    assert r2 == ResultPrefix + n2 + ResultInfix + c2;
    // a longer number would put one of its digits where the other name has '_'
    var k := if |n1| < |n2| then |n1| else |n2|;
    ResultNameCharAt(c1, n1, k);
    ResultNameCharAt(c2, n2, k);
    assert |n1| == |n2|;
    assert n1 == r1[2..2 + |n1|] == r2[2..2 + |n2|] == n2;
  }

  /** The character of a result name just after the prefix and `i` characters
      of the execution number. */
  lemma ResultNameCharAt(c: string, n: string, i: nat)
    requires i <= |n|
    ensures ResultCollectionName(c, n)[|ResultPrefix| + i] == if i < |n| then n[i] else '_'
  {
    assert ResultCollectionName(c, n) == ResultPrefix + n + ResultInfix + c;
  }

  /** Without decimal execution numbers the names can collide: the two
      executions "1" and "1_RESULT_x" share a result collection name. */
  lemma ResultNameCollision()
    ensures ResultCollectionName("x_RESULT_y", "1") == ResultCollectionName("y", "1_RESULT_x")
  {
  }

  /** Distinct executions arm distinct deadline tasks. */
  lemma TaskIdInjective(n1: string, n2: string)
    ensures TaskId(n1) == TaskId(n2) <==> n1 == n2
  {
  }
}
