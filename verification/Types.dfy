/** Values shared by every component: identifiers, results and request records. */
module Types {
  type Id = string
  type Token = int
  type Pos = n: nat | 0 < n witness 1

  datatype Option<+T> = None | Some(value: T)
  datatype Result<+T, +E> = Ok(value: T) | Err(error: E)

  datatype Status = Pending | Prefill | Generating | Complete | Preempted | Failed
  datatype Priority = Normal | High {
    function Rank(): nat { if Normal? then 0 else 1 }
  }

  /** What a request holds at one moment. */
  datatype Req = Req(
    id: Id,
    prompt: seq<Token>,
    maxNew: nat,
    priority: Priority,
    model: Option<string>,
    arrival: real,
    status: Status,
    generated: seq<Token>)
  {
    predicate Finished() { status.Complete? || status.Failed? }
  }

  predicate HasId(rs: seq<Req>, id: Id) { exists i :: 0 <= i < |rs| && rs[i].id == id }

  function SetOf<T>(s: seq<T>): set<T> { set x | x in s }

  /** set(range(n)) */
  function Range(n: nat): (s: set<nat>)
    ensures forall b: nat :: b in s <==> b < n
    ensures |s| == n
  {
    if n == 0 then {} else Range(n - 1) + {n - 1}
  }

  lemma SetOfAppend<T>(s: seq<T>, x: T)
    ensures SetOf(s + [x]) == SetOf(s) + {x}
  {
  }

  lemma PrefixTrans<T>(a: seq<T>, b: seq<T>, c: seq<T>)
    requires a <= b <= c
    ensures a <= c
  {
  }

  lemma Assoc<T>(a: seq<T>, b: seq<T>, c: seq<T>)
    ensures a + b + c == a + (b + c)
  {
  }

  predicate NoDup<T(==)>(s: seq<T>) {
    forall i, j :: 0 <= i < j < |s| ==> s[i] != s[j]
  }

  lemma NoDupAppend<T>(s: seq<T>, x: T)
    requires NoDup(s) && x !in SetOf(s)
    ensures NoDup(s + [x])
  {
  }
}
