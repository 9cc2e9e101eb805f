/** Strings that are not among given ones: a database can always hand out another id. */
module Fresh {

  function Name(n: nat): string {
    seq(n, _ => 'x')
  }

  lemma {:induction false} Above(keys: set<string>) returns (n: nat)
    ensures forall k | k in keys :: |k| < n
    decreases keys
  {
    if keys == {} {
      n := 0;
    } else {
      var key :| key in keys;
      var m := Above(keys - {key});
      n := if |key| < m then m else |key| + 1;
    }
  }

  lemma NewName(keys: set<string>) returns (name: string)
    ensures name !in keys
  {
    var n := Above(keys);
    name := Name(n);
  }

  /** As many as wanted, all different. */
  lemma NewNames(keys: set<string>, count: nat) returns (names: seq<string>)
    ensures |names| == count
    ensures forall i | 0 <= i < count :: names[i] !in keys
    ensures forall i, j | 0 <= i < j < count :: names[i] != names[j]
  {
    var n := Above(keys);
    names := seq(count, i requires 0 <= i < count => Name(n + i));
    assert forall i | 0 <= i < count :: names[i] == Name(n + i);
  }
}
