/**
 * The submission file-name parser: Canvas names a downloaded submission
 * `prefix_userID_suffix.ipynb`, or `prefix_LATE_userID_suffix.ipynb` when it
 * was handed in late, and the preprocessor renames it after the user id.
 */
module Preprocess {
  import opened Text

  /**
   * `_extract_user_id`: split the name on `'_'`; fewer than three parts give
   * `""`, a `LATE` marker in the second of at least four parts selects the
   * third, and otherwise the second part is the id.
   */
  function ExtractUserId(filename: string): string {
    var parts := Split(filename, '_');
    if |parts| < 3 then ""
    else if |parts| >= 4 && parts[1] == "LATE" then parts[2]
    else parts[1]
  }

  /** The id is one of the `'_'`-separated parts of the name, or `""`, so it never contains `'_'`. */
  lemma ExtractUserIdIsPart(filename: string)
    ensures ExtractUserId(filename) == "" || ExtractUserId(filename) in Split(filename, '_')
    ensures '_' !in ExtractUserId(filename)
  {
    SplitPartsLackSeparator(filename, '_');
  }

  /** A name with fewer than two underscores has no id. */
  lemma FewUnderscoresNoId(filename: string)
    requires multiset(filename)['_'] < 2
    ensures ExtractUserId(filename) == ""
  {
    SplitCount(filename, '_');
  }

  /** With at least two underscores the id is the second or, after a `LATE` marker, the third part. */
  lemma UnderscoresSelectPart(filename: string)
    requires multiset(filename)['_'] >= 2
    ensures var parts := Split(filename, '_');
            |parts| >= 3
            && ExtractUserId(filename) == if |parts| >= 4 && parts[1] == "LATE" then parts[2] else parts[1]
  {
    SplitCount(filename, '_');
  }

  /** An on-time submission `prefix_userID_suffix` yields `userID`. */
  lemma RegularNameYieldsId(prefix: string, id: string, suffix: string)
    requires '_' !in prefix && '_' !in id && id != "LATE"
    ensures ExtractUserId(prefix + "_" + id + "_" + suffix) == id
  {
    var name := prefix + "_" + id + "_" + suffix;
    assert name == prefix + ['_'] + (id + ['_'] + suffix);
    SplitAfter(prefix, id + ['_'] + suffix, '_');
    SplitAfter(id, suffix, '_');
    assert Split(name, '_') == [prefix] + ([id] + Split(suffix, '_'));
  }

  /** A late submission `prefix_LATE_userID_suffix` yields `userID`. */
  lemma LateNameYieldsId(prefix: string, id: string, suffix: string)
    requires '_' !in prefix && '_' !in id
    ensures ExtractUserId(prefix + "_LATE_" + id + "_" + suffix) == id
  {
    var name := prefix + "_LATE_" + id + "_" + suffix;
    assert name == prefix + ['_'] + ("LATE" + ['_'] + (id + ['_'] + suffix));
    SplitAfter(prefix, "LATE" + ['_'] + (id + ['_'] + suffix), '_');
    SplitAfter("LATE", id + ['_'] + suffix, '_');
    SplitAfter(id, suffix, '_');
    assert Split(name, '_') == [prefix] + ([ "LATE"] + ([id] + Split(suffix, '_')));
  }

  /** With only three parts a `LATE` marker is itself taken as the id. */
  lemma ThreePartLateYieldsMarker(prefix: string, suffix: string)
    requires '_' !in prefix && '_' !in suffix
    ensures ExtractUserId(prefix + "_LATE_" + suffix) == "LATE"
  {
    var name := prefix + "_LATE_" + suffix;
    assert name == prefix + ['_'] + ("LATE" + ['_'] + suffix);
    SplitAfter(prefix, "LATE" + ['_'] + suffix, '_');
    SplitAfter("LATE", suffix, '_');
    SplitCount(suffix, '_');
    assert Split(name, '_') == [prefix] + (["LATE"] + Split(suffix, '_'));
  }
}
