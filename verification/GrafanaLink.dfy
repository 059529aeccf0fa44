/** The names of the queries in a Grafana Explore link: A, B, …, Z, AA, AB, … */
module GrafanaLink {
  function Letter(n: nat): char
    requires n < 26
  {
    'A' + n as char
  }

  /** Numbers without a zero digit: Z is followed by AA. */
  function RefId(n: nat): string {
    if n < 26 then [Letter(n)] else RefId(n / 26 - 1) + [Letter(n % 26)]
  }

  method NumberedRefId(n: nat) returns (id: string)
    ensures id == RefId(n)
  {
    id := [];
    var k := n;
    while true
      invariant RefId(n) == RefId(k) + id
      decreases k
    {
      id := [Letter(k % 26)] + id;
      if k < 26 {
        break;
      }
      assert RefId(k) + id[1..] == RefId(k / 26 - 1) + ([Letter(k % 26)] + id[1..]);
      k := k / 26 - 1;
    }
  }

  predicate IsRefId(id: string) { id != "" && forall i :: 0 <= i < |id| ==> 'A' <= id[i] <= 'Z' }

  /** The position a name stands for. */
  function Position(id: string): (n: int)
    ensures n >= -1
  {
    if id == "" then -1 else
    var d := id[|id| - 1] as int - 'A' as int;
    if 0 <= d < 26 then 26 * (Position(id[..|id| - 1]) + 1) + d else -1
  }

  /** Every query has its own name. */
  lemma {:induction false} RefIdReads(n: nat)
    ensures IsRefId(RefId(n)) && Position(RefId(n)) == n
  {
    if n < 26 {
      assert RefId(n)[..0] == "";
    } else {
      RefIdReads(n / 26 - 1);
      assert RefId(n)[..|RefId(n)| - 1] == RefId(n / 26 - 1);
    }
  }

  /** Every name of capital letters is some query's. */
  lemma {:induction false} RefIdsAreAll(id: string)
    requires IsRefId(id)
    ensures Position(id) >= 0 && RefId(Position(id)) == id
  {
    var last := |id| - 1;
    var before := id[..last];
    assert id == before + [id[last]];
    if last == 0 {
      assert before == "";
    } else {
      RefIdsAreAll(before);
      var d := id[last] as int - 'A' as int;
      assert Position(id) / 26 - 1 == Position(before) && Position(id) % 26 == d;
    }
  }
}
