/** Small vocabulary shared by the other modules. */
module Base {
  const NAME_MIN_SIZE := 3
  const NAME_MAX_SIZE := 20
  const PASSWORD_MIN_SIZE := 3
  const PASSWORD_MAX_SIZE := 32
  const FRIENDS_MAX := 48
  const ROOM_MAX := 32
  const PACKET_FAIL_MAX := 3
  const MESSAGE_MAX_SIZE := 384
  const PACKET_MAX_SIZE := 1024
  const SESSION_KEY_SIZE := 16

  /** What a bounded copy keeps of a text. */
  function Clip(text: string, size: nat): (r: string)
    ensures r <= text && |r| <= size
    ensures |text| <= size ==> r == text
  {
    if |text| <= size then text else text[..size]
  }

  datatype Option<+T> = None | Some(value: T)

  /** A Redis list: a key that does not exist reads as the empty list. */
  function At<K, T>(m: map<K, seq<T>>, k: K): seq<T> {
    if k in m then m[k] else []
  }

  ghost predicate NoDup(s: seq<int>) {
    forall i, j :: 0 <= i < j < |s| ==> s[i] != s[j]
  }

  lemma {:induction false} OccursOnce(s: seq<int>, x: int)
    requires NoDup(s)
    ensures multiset(s)[x] == if x in s then 1 else 0
  {
    if s == [] {
    } else {
      OccursOnce(s[1..], x);
      assert s == [s[0]] + s[1..];
    }
  }

  /** `LREM key 0 x`: the list without any occurrence of x. */
  function Without(s: seq<int>, x: int): (r: seq<int>)
    ensures forall y :: y in r <==> y in s && y != x
    ensures |r| <= |s|
  {
    if s == [] then []
    else
      var rest := Without(s[1..], x);
      assert forall y :: y in s <==> y == s[0] || y in s[1..];
      if s[0] == x then rest else [s[0]] + rest
  }

  lemma {:induction false} WithoutKeepsNoDup(s: seq<int>, x: int)
    requires NoDup(s)
    ensures NoDup(Without(s, x))
  {
    if s == [] {
    } else {
      WithoutKeepsNoDup(s[1..], x);
      assert s[0] !in s[1..];
    }
  }

  lemma {:induction false} WithoutRemovesOne(s: seq<int>, x: int)
    requires NoDup(s) && x in s
    ensures |Without(s, x)| == |s| - 1
  {
    if s[0] == x {
      WithoutAbsent(s[1..], x);
    } else {
      WithoutRemovesOne(s[1..], x);
    }
  }

  lemma {:induction false} WithoutAbsent(s: seq<int>, x: int)
    requires x !in s
    ensures Without(s, x) == s
  {
    if s == [] {
    } else {
      WithoutAbsent(s[1..], x);
    }
  }

  /** Looking a user up by name: some id with that name, if there is one. */
  ghost function IdOf(names: map<int, string>, name: string): (r: Option<int>)
    ensures r.Some? ==> r.value in names && names[r.value] == name
    ensures r.None? ==> forall id :: id in names ==> names[id] != name
  {
    if exists id :: id in names && names[id] == name then
      var id :| id in names && names[id] == name;
      Some(id)
    else None
  }

  ghost predicate Distinct(names: map<int, string>) {
    forall i, j :: i in names && j in names && names[i] == names[j] ==> i == j
  }
}
