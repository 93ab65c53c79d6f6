/** Index-based list edits shared by the editors. */
module Lists {
  /** `s.filter((_, i) => i !== k)`: drops the entry at index k, if any. */
  function Without<T>(s: seq<T>, k: int): (r: seq<T>)
    ensures 0 <= k < |s| ==> |r| == |s| - 1
    ensures !(0 <= k < |s|) ==> r == s
  {
    if s == [] then []
    else if k == 0 then s[1..]
    else
      [s[0]] + Without(s[1..], k - 1)
  }

  /** Only index k goes: the entries before it keep their index and the
      entries after it move down by one. */
  lemma {:induction false} WithoutShifts<T>(s: seq<T>, k: int)
    requires 0 <= k < |s|
    ensures forall j :: 0 <= j < k ==> Without(s, k)[j] == s[j]
    ensures forall j :: k < j < |s| ==> Without(s, k)[j - 1] == s[j]
  {
    if k > 0 {
      WithoutShifts(s[1..], k - 1);
    }
  }

  /** The same as slices: the part before k, then the part after it. */
  lemma WithoutSlices<T>(s: seq<T>, k: int)
    requires 0 <= k < |s|
    ensures Without(s, k) == s[..k] + s[k + 1..]
  {
    WithoutShifts(s, k);
  }

  /** Every entry that survives was in the list, and every entry but the
      dropped one survives. */
  lemma WithoutMembership<T>(s: seq<T>, k: int)
    ensures forall x :: x in Without(s, k) ==> x in s
    ensures forall j :: 0 <= j < |s| && j != k ==> s[j] in Without(s, k)
  {
    var r := Without(s, k);
    if 0 <= k < |s| {
      WithoutShifts(s, k);
      forall x | x in r ensures x in s {
        var i :| 0 <= i < |r| && r[i] == x;
        if i < k { assert x == s[i]; } else { assert x == s[i + 1]; }
      }
      forall j | 0 <= j < |s| && j != k ensures s[j] in r {
        if j > k {
          assert r[j - 1] == s[j];
        } else {
          assert r[j] == s[j];
        }
      }
    }
  }
}
