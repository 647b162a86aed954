/** `getWorkloadColor` of components/WorkloadChart.tsx: the bar colour of an
    associate's workload, in three bands. */
module WorkloadChart {

  const Red: string := "#EF4444"
  const Amber: string := "#F59E0B"
  const Green: string := "#22C55E"

  /** Each band holds exactly its range of workloads. */
  function WorkloadColor(workload: int): (c: string)
    ensures c == Red <==> workload >= 8
    ensures c == Amber <==> 5 <= workload < 8
    ensures c == Green <==> workload < 5
  {
    if workload >= 8 then Red
    else if workload >= 5 then Amber
    else Green
  }

  /** The severity a colour stands for: green, then amber, then red. */
  function Severity(c: string): nat
  {
    if c == Red then 2 else if c == Amber then 1 else 0
  }

  /** A heavier workload never gets a milder colour. */
  lemma ColorMonotone(a: int, b: int)
    requires a <= b
    ensures Severity(WorkloadColor(a)) <= Severity(WorkloadColor(b))
  {
  }
}
