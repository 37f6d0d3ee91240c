/** Python's idiom for turning a venue string into an `Enum` member:
    iterate the members in declaration order and stop at the first whose
    `.value` equals the string. */
module EnumLookup {
  import opened Json

  /** The first member of `members`, in order, whose value is `text`. */
  function FirstWithValue<E(==)>(members: seq<E>, value: E -> string, text: string): (r: Option<E>)
    ensures r.Some? ==> r.value in members && value(r.value) == text
    ensures r.None? <==> forall i :: 0 <= i < |members| ==> value(members[i]) != text
    ensures r.Some? ==> exists k :: 0 <= k < |members| && members[k] == r.value &&
                          forall i :: 0 <= i < k ==> value(members[i]) != text
  {
    if members == [] then None
    else if value(members[0]) == text then Some(members[0])
    else
      var rest := FirstWithValue(members[1..], value, text);
      assert forall i :: 1 <= i < |members| ==> members[i] == members[1..][i - 1];
      if rest.Some? then
        var k :| 0 <= k < |members[1..]| && members[1..][k] == rest.value &&
                 forall i :: 0 <= i < k ==> value(members[1..][i]) != text;
        assert members[k + 1] == rest.value;
        rest
      else rest
  }

  /** When the values of the members are pairwise distinct, the member found
      is the one and only member with that value. */
  lemma {:induction false} FirstWithValueUnique<E>(members: seq<E>, value: E -> string, m: E)
    requires m in members
    requires forall i, j :: 0 <= i < j < |members| ==> value(members[i]) != value(members[j])
    ensures FirstWithValue(members, value, value(m)) == Some(m)
  {
    var r := FirstWithValue(members, value, value(m));
    var j :| 0 <= j < |members| && members[j] == m;
    assert r.Some?;
    var k :| 0 <= k < |members| && members[k] == r.value &&
             forall i :: 0 <= i < k ==> value(members[i]) != value(m);
    assert !(j < k);
    assert !(k < j);
  }

  /** The loop with an early `return`/`break` that the clients write out. */
  method Lookup<E(==)>(members: seq<E>, value: E -> string, text: string) returns (r: Option<E>)
    ensures r == FirstWithValue(members, value, text)
  {
    var i := 0;
    while i < |members|
      invariant 0 <= i <= |members|
      invariant FirstWithValue(members, value, text) == FirstWithValue(members[i..], value, text)
    {
      if value(members[i]) == text {
        return Some(members[i]);
      }
      assert members[i..][1..] == members[i + 1..];
      i := i + 1;
    }
    return None;
  }
}
