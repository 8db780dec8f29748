/** Column padding used by the order table. */
module Padding {

  /** `reserveCharacter`: `str` followed by as many spaces as it takes to reach `length`
      characters; a string already that long comes back unchanged. */
  method ReserveCharacter(str: string, length: int) returns (r: string)
    ensures |r| == if |str| < length then length else |str|
    ensures r[..|str|] == str
    ensures forall k :: |str| <= k < |r| ==> r[k] == ' '
  {
    var space := "";
    var i := |str|;
    while i < length
      invariant |str| <= i && (i <= length || i == |str|)
      invariant |space| == i - |str|
      invariant forall k :: 0 <= k < |space| ==> space[k] == ' '
    {
      space := space + " ";
      i := i + 1;
    }
    r := str + space;
  }
}
