/** Day statuses, supervisors and the three-timeline schedule shared by the
    generator, the validator and the planner of the mining shift scheduler. */
module Domain {

  /** What a supervisor does on one calendar day. Empty marks a cell of the
      pre-sized timeline that the generator never wrote. */
  datatype Status = Rise | Induction | Drilling | Descent | Rest | Empty

  /** The one-letter code under which the schedule stores and shows a status. */
  function Code(s: Status): char
  {
    match s
    case Rise => 'S'
    case Induction => 'I'
    case Drilling => 'P'
    case Descent => 'B'
    case Rest => 'D'
    case Empty => '-'
  }

  /** Distinct statuses have distinct codes, so comparing codes (as the
      scheduler does) is comparing statuses. */
  lemma CodeInjective(a: Status, b: Status)
    ensures Code(a) == Code(b) ==> a == b
  {
  }

  /** `n` copies of `x`. */
  function Repeat<T>(x: T, n: nat): (r: seq<T>)
    ensures |r| == n
    ensures forall i :: 0 <= i < n ==> r[i] == x
  {
    seq(n, _ => x)
  }

  /** A run of x holds x exactly n times and nothing else. */
  lemma {:induction false} RepeatCount<T>(x: T, n: nat, y: T)
    ensures multiset(Repeat(x, n))[y] == if x == y then n else 0
  {
    if n > 0 {
      RepeatCount(x, n - 1, y);
      assert Repeat(x, n) == Repeat(x, n - 1) + [x];
    }
  }

  datatype Supervisor = S1 | S2 | S3

  /** The three timelines, one per supervisor. */
  datatype Schedule = Schedule(s1: seq<Status>, s2: seq<Status>, s3: seq<Status>)
  {
    function Of(sup: Supervisor): seq<Status>
    {
      match sup
      case S1 => s1
      case S2 => s2
      case S3 => s3
    }
  }

  /** The status of timeline `t` on `day`. A read past either end yields
      `undefined` in the scheduler, which equals no status letter; Empty
      stands for it, since Empty is never compared against either. */
  function At(t: seq<Status>, day: int): (r: Status)
    ensures 0 <= day < |t| ==> r == t[day]
    ensures !(0 <= day < |t|) ==> r == Empty
  {
    if 0 <= day < |t| then t[day] else Empty
  }

  /** Timeline `t` has a Drilling cell at index `k`. */
  predicate DrillingAt(t: seq<Status>, k: int)
  {
    0 <= k < |t| && t[k] == Drilling
  }
}
