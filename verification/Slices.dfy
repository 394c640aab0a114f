/** Growable slices over arrays: several slices may share an array, and appending writes in place as long
    as the array has room. */
module Slices {

  datatype Slice<T> = Slice(backing: array<T>, len: nat)

  predicate Valid<T>(s: Slice<T>) {
    s.len <= s.backing.Length
  }

  function Items<T>(s: Slice<T>): seq<T>
    requires Valid(s)
    reads s.backing
  {
    s.backing[..s.len]
  }

  /** The capacity after one more append. */
  function Grown(len: nat, capacity: nat): nat {
    if len < capacity then capacity else if capacity == 0 then 1 else 2 * capacity
  }

  method Empty<T>() returns (s: Slice<T>)
    ensures Valid(s) && Items(s) == [] && fresh(s.backing) && s.backing.Length == 0
  {
    var backing := new T[0];
    s := Slice(backing, 0);
  }

  /** Appends in place if there is room, and to a larger copy if not. */
  method Append<T>(s: Slice<T>, x: T) returns (r: Slice<T>)
    requires Valid(s)
    modifies s.backing
    ensures Valid(r) && r.len == s.len + 1 && Items(r) == old(Items(s)) + [x]
    ensures r.backing.Length == Grown(s.len, s.backing.Length)
    ensures if s.len < s.backing.Length then r.backing == s.backing else fresh(r.backing)
    ensures Items(s) == old(Items(s))
  {
    if s.len < s.backing.Length {
      s.backing[s.len] := x;
      r := Slice(s.backing, s.len + 1);
    } else {
      var capacity := Grown(s.len, s.backing.Length);
      var backing := new T[capacity](i requires 0 <= i reads s.backing => if i < s.len then s.backing[i] else x);
      r := Slice(backing, s.len + 1);
    }
  }

  /** `append([]T{}, s...)`: the same items in an array of their own. */
  method Copy<T>(s: Slice<T>) returns (r: Slice<T>)
    requires Valid(s)
    ensures Valid(r) && Items(r) == Items(s) && fresh(r.backing)
  {
    var backing := new T[s.len](i requires 0 <= i < s.len reads s.backing => s.backing[i]);
    r := Slice(backing, s.len);
  }
}
