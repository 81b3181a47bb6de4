/**
 * The crew record the agent framework is handed (`Crew(agents=..., tasks=...,
 * process=..., verbose=...)`), and the list operation the builders use on
 * its agent and task lists.
 */
module Crews {
  import opened Agents
  import opened Tasks

  /** How the framework runs the tasks; both builders pick the sequential one. */
  datatype Process = Sequential | Hierarchical

  datatype Crew = Crew(agents: seq<Agent>, tasks: seq<Task>, process: Process, verbose: bool)

  /** The lists line up: there are as many tasks as agents, and task `i` is run by agent `i`. */
  predicate Aligned(agents: seq<Agent>, tasks: seq<Task>) {
    |agents| == |tasks| && forall i :: 0 <= i < |tasks| ==> tasks[i].agent == agents[i]
  }

  /**
   * Where Python's `list.insert(i, x)` puts `x` in a list of length `n`: a
   * negative `i` counts from the end, and the result is clamped to `0..n`.
   */
  function InsertionPoint(n: nat, i: int): (k: nat)
    ensures k <= n
    ensures 0 <= i <= n ==> k == i
    ensures i > n ==> k == n
    ensures i < 0 ==> k == if n + i < 0 then 0 else n + i
  {
    if i < 0 then (if n + i < 0 then 0 else n + i)
    else if i > n then n
    else i
  }

  /** The list after `s.insert(i, x)`. */
  function Insert<T>(s: seq<T>, i: int, x: T): (r: seq<T>)
    ensures |r| == |s| + 1
    ensures r[InsertionPoint(|s|, i)] == x
    ensures forall k :: 0 <= k < InsertionPoint(|s|, i) ==> r[k] == s[k]
    ensures forall k :: InsertionPoint(|s|, i) <= k < |s| ==> r[k + 1] == s[k]
  {
    var k := InsertionPoint(|s|, i);
    s[..k] + [x] + s[k..]
  }

  /** Inserting one element and removing it again gives back the list. */
  lemma InsertRemoved<T>(s: seq<T>, i: int, x: T)
    ensures var k := InsertionPoint(|s|, i);
      Insert(s, i, x)[..k] + Insert(s, i, x)[k + 1..] == s
  {
    var k := InsertionPoint(|s|, i);
    var r := Insert(s, i, x);
    assert r[..k] == s[..k];
    assert r[k + 1..] == s[k..];
  }

  /** Inserting at 1 into a non-empty list keeps the head, puts `x` second and shifts the rest. */
  lemma InsertAtOne<T>(s: seq<T>, x: T)
    requires |s| >= 1
    ensures Insert(s, 1, x) == [s[0], x] + s[1..]
  {
  }

  /** Inserting an agent and the task it runs at the same place keeps the lists aligned. */
  lemma InsertPreservesAlignment(agents: seq<Agent>, tasks: seq<Task>, i: int, a: Agent, t: Task)
    requires Aligned(agents, tasks)
    requires t.agent == a
    ensures Aligned(Insert(agents, i, a), Insert(tasks, i, t))
  {
    var k := InsertionPoint(|tasks|, i);
    var ra, rt := Insert(agents, i, a), Insert(tasks, i, t);
    forall j | 0 <= j < |rt| ensures rt[j].agent == ra[j] {
      if j < k {
      } else if j == k {
      } else {
        assert rt[j] == tasks[j - 1] && ra[j] == agents[j - 1];
      }
    }
  }
}
