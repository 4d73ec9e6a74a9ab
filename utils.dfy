/** `capitalizeFirstLetter`, over the ASCII case mapping of `Js.UpperChar` / `Js.LowerChar`. */
module Utils {
  import opened Js

  /** The empty string is returned as it is; otherwise the first character is upper-cased and
      every later one lower-cased. */
  function CapitalizeFirstLetter(value: string): (r: string)
    ensures |r| == |value|
    ensures value == "" ==> r == ""
    ensures value != "" ==> r[0] == UpperChar(value[0])
    ensures forall k :: 0 < k < |value| ==> r[k] == LowerChar(value[k])
  {
    if |value| == 0 then value else [UpperChar(value[0])] + ToLower(value[1..])
  }

  /** A capitalised string starts with no lower-case letter and has no upper-case letter after
      its first character. */
  lemma CapitalizedShape(value: string)
    ensures var r := CapitalizeFirstLetter(value);
      && (r != [] ==> !IsAsciiLower(r[0]))
      && forall k :: 0 < k < |r| ==> !IsAsciiUpper(r[k])
  {
  }

  /** Capitalising twice is capitalising once. */
  lemma CapitalizeIdempotent(value: string)
    ensures CapitalizeFirstLetter(CapitalizeFirstLetter(value)) == CapitalizeFirstLetter(value)
  {
    var once := CapitalizeFirstLetter(value);
    var twice := CapitalizeFirstLetter(once);
    forall k | 0 <= k < |twice| ensures twice[k] == once[k] {
      if k == 0 {
        assert !IsAsciiLower(once[0]);
      } else {
        assert !IsAsciiUpper(once[k]);
      }
    }
  }

  /** Lower-casing a string first does not change how it is capitalised. */
  lemma CapitalizeIgnoresCase(value: string)
    ensures CapitalizeFirstLetter(ToLower(value)) == CapitalizeFirstLetter(value)
  {
    var a := CapitalizeFirstLetter(ToLower(value));
    var b := CapitalizeFirstLetter(value);
    forall k | 0 <= k < |a| ensures a[k] == b[k] {
      var c := value[k];
      if k == 0 {
        assert UpperChar(LowerChar(c)) == UpperChar(c) by {
          if IsAsciiUpper(c) {
            assert IsAsciiLower(LowerChar(c)) && (LowerChar(c) as int - 32) as char == c;
          }
        }
      } else {
        assert LowerChar(LowerChar(c)) == LowerChar(c);
      }
    }
  }
}
