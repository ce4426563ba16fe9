/**
  The decimal parser of the Windows updater's command line (_other/updater_win.cpp):
  a 64-bit accumulator that refuses to overflow.
 */
module UpdateProcess {

  const MAX_U64: nat := 0xFFFF_FFFF_FFFF_FFFF
  const MAX_U32: nat := 0xFFFF_FFFF

  predicate AllDigits(text: string) {
    forall i :: 0 <= i < |text| ==> '0' <= text[i] <= '9'
  }

  /** The number a string of digits denotes in base ten, leading zeros allowed. */
  ghost function Value(text: string): nat
    requires AllDigits(text)
  {
    if |text| == 0 then 0 else 10 * Value(text[..|text| - 1]) + (text[|text| - 1] as int - '0' as int)
  }

  /** A longer string of digits never denotes less than its prefix. */
  lemma {:induction false} ValueGrows(text: string, n: nat)
    requires AllDigits(text) && n <= |text|
    ensures Value(text[..n]) <= Value(text)
    decreases |text|
  {
    if n == |text| {
      assert text[..n] == text;
    } else {
      var init := text[..|text| - 1];
      assert text[..n] == init[..n];
      ValueGrows(init, n);
    }
  }

  /** A positive 64-bit number in decimal digits. */
  ghost predicate IsPositiveInteger(text: string) {
    AllDigits(text) && 0 < Value(text) <= MAX_U64
  }

  method ParsePositiveInteger(text: string) returns (ok: bool, result: nat)
    ensures ok <==> IsPositiveInteger(text)
    ensures ok ==> result == Value(text)
    ensures result <= MAX_U64
  {
    result := 0;
    var i := 0;
    while i < |text|
      invariant i <= |text| && result <= MAX_U64
      invariant AllDigits(text[..i]) && result == Value(text[..i])
    {
      if text[i] < '0' || text[i] > '9' {
        return false, result;
      }
      var digit := text[i] as int - '0' as int;
      ghost var next := text[..i + 1];
      assert next[..i] == text[..i];
      assert Value(next) == 10 * result + digit;
      if result > (MAX_U64 - digit) / 10 {
        if AllDigits(text) {
          ValueGrows(text, i + 1);
        }
        return false, result;
      }
      result := result * 10 + digit;
      i := i + 1;
    }
    assert text[..i] == text;
    ok := result != 0;
  }

  /** The two numbers the caller keeps: assigned only by a successful parse. */
  class Process {
    var processId: nat
    var creationTime: nat

    method Parse(id: string, created: string) returns (ok: bool)
      modifies this
      ensures ok <==> IsPositiveInteger(id) && Value(id) <= MAX_U32 && IsPositiveInteger(created)
      ensures ok ==> processId == Value(id) && creationTime == Value(created)
      ensures !ok ==> processId == old(processId) && creationTime == old(creationTime)
    {
      var idOk, parsedId := ParsePositiveInteger(id);
      if !idOk || parsedId > MAX_U32 {
        return false;
      }
      var createdOk, parsedTime := ParsePositiveInteger(created);
      if !createdOk {
        return false;
      }
      processId := parsedId;
      creationTime := parsedTime;
      ok := true;
    }
  }
}
