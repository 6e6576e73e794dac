/** Runtime expressions, their actions, and the status an evaluation carries. */
module Expressions {
  import opened Basics

  type Diagnostic = string

  datatype Predicate =
    | Prune
    | FsType(arg: string) | Readable | Writable | Executable
    | Name(arg: string) | Path(arg: string) | Regex(arg: string)
    | Inum(arg: string) | Links(arg: string) | SameFile(arg: string) | LName(arg: string)
    | Uid(arg: string) | Gid(arg: string) | User(arg: string) | Group(arg: string) | NoUser | NoGroup
    | Perm(arg: string) | Flags(arg: string) | ReparseType(arg: string) | Size(arg: string) | Empty | Used(arg: string)
    | RelativeTime(arg: string) | Newer(ofBirth: bool, arg: string)
    | Type(arg: string) | XType(arg: string)
    | True | False

  datatype Action =
    | Output(arg: string) | Printf(arg: string)
    | FilePrint(destination: nat, arg: string) | FilePrintf(destination: nat, arg: string)
    | Ls | FileLs(destination: nat)
    | Quit
    | ExecImmediate(arg: string) | ExecBatched(arg: string) | ExecPrompt(arg: string)
    | Delete

  datatype Expr =
    | And(items: seq<Expr>)
    | Or(left: Expr, right: Expr)
    | Not(inner: Expr)
    | Pred(test: Predicate)
    | Act(action: Action)
    | Barrier

  /** The number of nodes. */
  function Nodes(e: Expr): (n: nat)
    ensures n > 0
  {
    match e
    case And(items) => 1 + NodesOf(items)
    case Or(l, r) => 1 + Nodes(l) + Nodes(r)
    case Not(i) => 1 + Nodes(i)
    case _ => 1
  }

  function NodesOf(items: seq<Expr>): nat {
    if items == [] then 0 else Nodes(items[0]) + NodesOf(items[1..])
  }

  lemma {:induction false} NodesWithin(items: seq<Expr>, i: nat)
    requires i < |items|
    ensures Nodes(items[i]) + NodesOf(items[i + 1..]) == NodesOf(items[i..]) <= NodesOf(items)
    decreases i
  {
    assert items[i..][0] == items[i] && items[i..][1..] == items[i + 1..];
    if i > 0 {
      NodesWithin(items, i - 1);
    } else {
      assert items[0..] == items;
    }
  }

  // ----- Status -----

  datatype Status = Status(failed: bool, stop: bool)

  const CLEAR := Status(false, false)

  function Merge(a: Status, b: Status): Status {
    Status(a.failed || b.failed, a.stop || b.stop)
  }

  datatype Outcome = Outcome(matched: bool, status: Status)
}
