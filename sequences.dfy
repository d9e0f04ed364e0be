/** The first-match search behind `Array.prototype.findIndex` and
    `Array.prototype.find`, over any key of the elements. */
module Sequences {

  /** `s.findIndex(x => key(x) === k)`: the first index whose key is `k`, or -1. */
  function FindIndex<T>(s: seq<T>, key: T -> string, k: string): (r: int)
    ensures -1 <= r < |s|
    ensures r == -1 <==> forall i :: 0 <= i < |s| ==> key(s[i]) != k
    ensures r >= 0 ==> key(s[r]) == k && forall i :: 0 <= i < r ==> key(s[i]) != k
  {
    if s == [] then -1
    else if key(s[0]) == k then 0
    else
      var j := FindIndex(s[1..], key, k);
      assert j >= 0 ==> s[j + 1] == s[1..][j];
      if j == -1 then -1 else j + 1
  }
}
