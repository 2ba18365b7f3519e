/** The OS test of cd/go/task/qt/Util.java: a null-safe, case-insensitive substring check. */
module Util {
  import opened JavaText

  /** Util.containsIgnoreCase: false when either argument is null, otherwise whether the lower-cased
      value occurs in the lower-cased text. */
  predicate ContainsIgnoreCase(text: Option<string>, value: Option<string>)
  {
    text.Some? && value.Some? && Contains(ToLower(text.value), ToLower(value.value))
  }

  /** Util.isWindows, with the "os.name" system property passed in. */
  predicate IsWindows(osName: Option<string>)
  {
    ContainsIgnoreCase(osName, Some("windows"))
  }

  /** containsIgnoreCase is null-safe in both arguments and otherwise is substring search on the
      lower-cased strings. */
  lemma ContainsIgnoreCaseIff(text: Option<string>, value: Option<string>)
    ensures text.None? ==> !ContainsIgnoreCase(text, value)
    ensures value.None? ==> !ContainsIgnoreCase(text, value)
    ensures text.Some? && value.Some? ==>
      (ContainsIgnoreCase(text, value) <==> exists i :: OccursAt(ToLower(text.value), ToLower(value.value), i))
  {
    if text.Some? && value.Some? {
      ContainsIff(ToLower(text.value), ToLower(value.value));
    }
  }

  /** The OS is Windows exactly when its name is known and "windows" occurs in it in any letter case;
      an unknown OS name is not Windows. */
  lemma IsWindowsIff(osName: Option<string>)
    ensures IsWindows(osName) <==> osName.Some? && exists i :: OccursAt(ToLower(osName.value), "windows", i)
  {
    assert ToLower("windows") == "windows";
    ContainsIgnoreCaseIff(osName, Some("windows"));
  }
}
