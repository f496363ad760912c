/** The display helpers of client/utils/formatting.ts. */
module Formatting {
  import opened Common
  import opened Text

  /** The display name of a recognised, normalised frequency. */
  function KnownFrequency(normalized: string): Option<string> {
    if normalized == "daily" then Some("Daily")
    else if normalized == "twice daily" then Some("Twice Daily")
    else if normalized == "weekly" then Some("Weekly")
    else if normalized == "as needed" then Some("As Needed")
    else None
  }

  /**
    `formatFrequency`: 'Not specified' for null, undefined or '', the display
    name when the trimmed, lower-cased text is one of the four known values,
    and otherwise the input exactly as given.
  */
  function FormatFrequency(frequency: Option<string>): (r: string)
    ensures frequency.None? || frequency == Some("") ==> r == "Not specified"
    ensures frequency.Some? && frequency.value != "" ==>
              r == KnownFrequency(Lower(Trim(frequency.value))).GetOr(frequency.value)
  {
    if frequency.None? || frequency.value == "" then "Not specified"
    else
      match KnownFrequency(Lower(Trim(frequency.value)))
      case Some(name) => name
      case None => frequency.value
  }

  /** A word that neither starts nor ends with whitespace normalises to its lower-cased form. */
  lemma NormalizesTo(word: string, normalized: string)
    requires word != "" && !IsWhitespace(word[0]) && !IsWhitespace(word[|word| - 1])
    requires Lower(word) == normalized
    ensures Lower(Trim(word)) == normalized
  {
    assert Trim(word) == word by {
      TrimPadded("", word, "");
      assert "" + word + "" == word;
    }
  }

  /** A word with no surrounding whitespace that lower-cases to a known value is shown as that value's name. */
  lemma ShownAs(word: string, normalized: string)
    requires word != "" && !IsWhitespace(word[0]) && !IsWhitespace(word[|word| - 1])
    requires Lower(word) == normalized && KnownFrequency(normalized).Some?
    ensures FormatFrequency(Some(word)) == KnownFrequency(normalized).value
  {
    NormalizesTo(word, normalized);
  }

  /** The four recognised values and their display names. */
  lemma KnownFrequencies(word: string)
    requires word == "daily" || word == "twice daily" || word == "weekly" || word == "as needed"
    ensures word == "daily" ==> FormatFrequency(Some(word)) == "Daily"
    ensures word == "twice daily" ==> FormatFrequency(Some(word)) == "Twice Daily"
    ensures word == "weekly" ==> FormatFrequency(Some(word)) == "Weekly"
    ensures word == "as needed" ==> FormatFrequency(Some(word)) == "As Needed"
  {
    ShownAs(word, word);
  }

  /** 'Not specified' is not a recognised value, so it is shown as given. */
  lemma NotSpecifiedFixed()
    ensures FormatFrequency(Some("Not specified")) == "Not specified"
  {
    assert Lower(Trim("Not specified")) == "not specified" by { NormalizesTo("Not specified", "not specified"); }
  }

  /** 'Daily' is shown as itself. */
  lemma DailyFixed()
    ensures FormatFrequency(Some("Daily")) == "Daily"
  {
    ShownAs("Daily", "daily");
  }

  /** 'Twice Daily' is shown as itself. */
  lemma TwiceDailyFixed()
    ensures FormatFrequency(Some("Twice Daily")) == "Twice Daily"
  {
    ShownAs("Twice Daily", "twice daily");
  }

  /** 'Weekly' is shown as itself. */
  lemma WeeklyFixed()
    ensures FormatFrequency(Some("Weekly")) == "Weekly"
  {
    ShownAs("Weekly", "weekly");
  }

  /** 'As Needed' is shown as itself. */
  lemma AsNeededFixed()
    ensures FormatFrequency(Some("As Needed")) == "As Needed"
  {
    ShownAs("As Needed", "as needed");
  }

  /** A display name, formatted again, is itself. */
  lemma DisplayNameFixed(name: string)
    requires name == "Not specified" || name == "Daily" || name == "Twice Daily" || name == "Weekly" || name == "As Needed"
    ensures FormatFrequency(Some(name)) == name
  {
    if name == "Not specified" {
      NotSpecifiedFixed();
    } else if name == "Daily" {
      DailyFixed();
    } else if name == "Twice Daily" {
      TwiceDailyFixed();
    } else if name == "Weekly" {
      WeeklyFixed();
    } else {
      AsNeededFixed();
    }
  }

  /** A recognised word keeps its display name whatever whitespace surrounds it and whatever its case. */
  lemma FrequencyIgnoresPaddingAndCase(left: string, word: string, right: string)
    requires AllWhitespace(left) && AllWhitespace(right)
    requires KnownFrequency(Lower(word)).Some?
    ensures FormatFrequency(Some(left + word + right)) == KnownFrequency(Lower(word)).value
  {
    var n := Lower(word);
    assert n != "" && n[0] != ' ' && n[|n| - 1] != ' ';
    assert LowerChar(word[0]) == n[0] && LowerChar(word[|word| - 1]) == n[|n| - 1];
    TrimPadded(left, word, right);
  }

  /** 'DAILY' lower-cases to 'daily'. */
  lemma UpperDailyLowers()
    ensures Lower("DAILY") == "daily"
  {
  }

  /** `formatFrequency(' DAILY ')` is 'Daily'. */
  lemma PaddedUpperDaily()
    ensures FormatFrequency(Some(" DAILY ")) == "Daily"
  {
    UpperDailyLowers();
    FrequencyIgnoresPaddingAndCase(" ", "DAILY", " ");
    assert " " + "DAILY" + " " == " DAILY ";
  }

  /** Input that is not recognised is returned as given, neither trimmed nor lower-cased. */
  lemma UnknownIsUnchanged(s: string)
    requires s != ""
    requires KnownFrequency(Lower(Trim(s))).None?
    ensures FormatFrequency(Some(s)) == s
  {
  }

  /** `formatFrequency` is idempotent: formatting its output again gives the same text. */
  lemma FormatFrequencyIdempotent(frequency: Option<string>)
    ensures FormatFrequency(Some(FormatFrequency(frequency))) == FormatFrequency(frequency)
  {
    var r := FormatFrequency(frequency);
    if frequency.None? || frequency.value == "" || KnownFrequency(Lower(Trim(frequency.value))).Some? {
      DisplayNameFixed(r);
    } else {
      assert Some(r) == frequency;
    }
  }

  /** `formatDate`: 'N/A' for null, undefined or ''; otherwise the locale rendering `render` gives. */
  function FormatDate(dateString: Option<string>, render: string -> string): (r: string)
    ensures dateString.None? || dateString == Some("") ==> r == "N/A"
    ensures dateString.Some? && dateString.value != "" ==> r == render(dateString.value)
  {
    if dateString.None? || dateString.value == "" then "N/A" else render(dateString.value)
  }
}
