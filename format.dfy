/** Badge variants and display names for transaction categories (src/lib/format.ts). */
module Format {
  import opened Wrappers
  import opened Text

  datatype BadgeVariant = Default | Secondary | Outline | Success | Warning

  /** `CATEGORY_VARIANT_MAP`: Plaid primary categories and their badge variants. */
  const CategoryVariants: map<string, BadgeVariant> := map[
    "INCOME" := Success,
    "TRANSFER_IN" := Success,
    "TRANSFER_OUT" := Outline,
    "LOAN_PAYMENTS" := Warning,
    "BANK_FEES" := Warning,
    "ENTERTAINMENT" := Secondary,
    "FOOD_AND_DRINK" := Default,
    "GENERAL_MERCHANDISE" := Default,
    "HOME_IMPROVEMENT" := Secondary,
    "MEDICAL" := Secondary,
    "PERSONAL_CARE" := Secondary,
    "GENERAL_SERVICES" := Secondary,
    "GOVERNMENT_AND_NON_PROFIT" := Outline,
    "TRANSPORTATION" := Default,
    "TRAVEL" := Secondary,
    "RENT_AND_UTILITIES" := Outline
  ]

  /** The badge for a category: the mapped variant, and `Secondary` for a missing, empty or unknown one. */
  function GetCategoryVariant(category: Option<string>): (v: BadgeVariant)
    ensures !Truthy(category) ==> v == Secondary
    ensures Truthy(category) && category.value in CategoryVariants ==> v == CategoryVariants[category.value]
    ensures Truthy(category) && category.value !in CategoryVariants ==> v == Secondary
  {
    if !Truthy(category) then Secondary
    else if category.value in CategoryVariants then CategoryVariants[category.value]
    else Secondary
  }

  /** Only the two incoming-money categories get the success badge. */
  lemma SuccessOnlyForIncome(category: Option<string>)
    ensures GetCategoryVariant(category) == Success
            <==> category == Some("INCOME") || category == Some("TRANSFER_IN")
  {
    if GetCategoryVariant(category) == Success {
      var c := category.value;
      assert c in CategoryVariants && CategoryVariants[c] == Success;
    }
  }

  /** Only loan payments and bank fees get the warning badge. */
  lemma WarningOnlyForCharges(category: Option<string>)
    ensures GetCategoryVariant(category) == Warning
            <==> category == Some("LOAN_PAYMENTS") || category == Some("BANK_FEES")
  {
    if GetCategoryVariant(category) == Warning {
      var c := category.value;
      assert c in CategoryVariants && CategoryVariants[c] == Warning;
    }
  }

  /** `word.charAt(0).toUpperCase() + word.slice(1)` */
  function Capitalize(word: string): (r: string)
    ensures |r| == |word|
  {
    if word == [] then [] else [ToUpperChar(word[0])] + word[1..]
  }

  function CapitalizeAll(words: seq<string>): (r: seq<string>)
    ensures |r| == |words|
    ensures forall i :: 0 <= i < |words| ==> r[i] == Capitalize(words[i])
  {
    seq(|words|, i requires 0 <= i < |words| => Capitalize(words[i]))
  }

  /**
   * The display name of a category: "Uncategorized" when missing or empty,
   * otherwise the snake-case words lower-cased, capitalized and joined by spaces.
   */
  function FormatCategory(category: Option<string>): (r: string)
    ensures !Truthy(category) ==> r == "Uncategorized"
  {
    if !Truthy(category) then "Uncategorized"
    else Join(CapitalizeAll(Split(ToLower(category.value), '_')), " ")
  }

  /** A character absent from every part and from the separator is absent from the join. */
  lemma {:induction false} JoinAvoids(parts: seq<string>, sep: string, c: char)
    requires c !in sep
    requires forall i :: 0 <= i < |parts| ==> c !in parts[i]
    ensures c !in Join(parts, sep)
  {
    if |parts| > 1 {
      JoinAvoids(parts[1..], sep, c);
    }
  }

  /** Joins of equally long parts with equally long separators are equally long. */
  lemma {:induction false} JoinLength(a: seq<string>, b: seq<string>, sepA: string, sepB: string)
    requires |a| == |b| && |sepA| == |sepB|
    requires forall i :: 0 <= i < |a| ==> |a[i]| == |b[i]|
    ensures |Join(a, sepA)| == |Join(b, sepB)|
  {
    if |a| > 1 {
      JoinLength(a[1..], b[1..], sepA, sepB);
    }
  }

  /** Lower-casing never creates or removes an underscore or a space. */
  lemma LowerKeeps(s: string, c: char)
    requires c == '_' || c == ' '
    ensures c in ToLower(s) <==> c in s
  {
    if c in s {
      var i :| 0 <= i < |s| && s[i] == c;
      assert ToLower(s)[i] == c;
    }
    if c in ToLower(s) {
      var i :| 0 <= i < |s| && ToLower(s)[i] == c;
      assert s[i] == c;
    }
  }

  /** The display name never contains an underscore. */
  lemma FormatCategoryHasNoUnderscore(category: Option<string>)
    ensures '_' !in FormatCategory(category)
  {
    if Truthy(category) {
      var words := Split(ToLower(category.value), '_');
      var caps := CapitalizeAll(words);
      forall i | 0 <= i < |caps| ensures '_' !in caps[i] {
        if caps[i] != [] {
          assert caps[i] == [ToUpperChar(words[i][0])] + words[i][1..];
          assert words[i][0] != '_' by { assert words[i][0] in words[i]; }
          forall j | 0 <= j < |caps[i]| ensures caps[i][j] != '_' {
            if j > 0 { assert caps[i][j] == words[i][j] && words[i][j] in words[i]; }
          }
        }
      }
      JoinAvoids(caps, " ", '_');
    } else {
      assert "Uncategorized"[0] != '_';
    }
  }

  /** Each character maps to one character and `_` to a space, so the length is kept. */
  lemma FormatCategoryKeepsLength(category: Option<string>)
    requires Truthy(category)
    ensures |FormatCategory(category)| == |category.value|
  {
    var lower := ToLower(category.value);
    var words := Split(lower, '_');
    JoinLength(CapitalizeAll(words), words, " ", "_");
  }

  /**
   * For a category without spaces the display name has one word per
   * underscore-separated part: that part's first character upper-cased
   * followed by the rest lower-cased.
   */
  lemma FormatCategoryWords(category: Option<string>)
    requires Truthy(category) && ' ' !in category.value
    ensures var words := Split(FormatCategory(category), ' ');
            var source := Split(category.value, '_');
            && |words| == |source| == Count(category.value, '_') + 1
            && forall i :: 0 <= i < |words| ==> words[i] == Capitalize(ToLower(source[i]))
  {
    var c := category.value;
    var source := Split(c, '_');
    var lowered := ToLowerAll(source);
    assert Split(ToLower(c), '_') == lowered by {
      ToLowerJoin(source, "_");
      assert ToLower("_") == "_";
      forall i | 0 <= i < |lowered| ensures '_' !in lowered[i] {
        LowerKeeps(source[i], '_');
      }
      SplitJoin(lowered, '_');
    }
    var caps := CapitalizeAll(lowered);
    forall i | 0 <= i < |caps| ensures ' ' !in caps[i] {
      assert ' ' !in source[i] by {
        if ' ' in source[i] {
          var j :| 0 <= j < |source[i]| && source[i][j] == ' ';
          assert ' ' in Join(source, "_") by {
            JoinContains(source, "_", i, j);
          }
        }
      }
      LowerKeeps(source[i], ' ');
      if caps[i] != [] {
        forall j | 0 <= j < |caps[i]| ensures caps[i][j] != ' ' {
          if j > 0 { assert caps[i][j] == lowered[i][j] && lowered[i][j] in lowered[i]; }
          else { assert lowered[i][0] in lowered[i]; }
        }
      }
    }
    SplitJoin(caps, ' ');
    SplitCount(c, '_');
  }

  /** A character of a part is a character of the join. */
  lemma {:induction false} JoinContains(parts: seq<string>, sep: string, i: nat, j: nat)
    requires i < |parts| && j < |parts[i]|
    ensures parts[i][j] in Join(parts, sep)
  {
    if |parts| > 1 {
      if i == 0 {
        assert Join(parts, sep)[j] == parts[0][j];
      } else {
        JoinContains(parts[1..], sep, i - 1, j);
      }
    }
  }
}
