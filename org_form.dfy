/**
 * The "new organization" form of the admin console: the slug generated
 * from the organization name, the form's slug rule, the rule that keeps
 * an auto-generated slug in step with the name, submission and the
 * "Create Another" reset.
 */
module OrgForm {
  import opened Wrappers
  import opened Text
  import TenantRouter

  // ---------------------------------------------------------------------
  // Slug generation: lower-case, filter, whitespace runs to "-", collapse
  // "-" runs, trim one "-" at either end, cut to 63 characters.
  // ---------------------------------------------------------------------

  /** Characters that survive `[^a-z0-9\s-]` removal. */
  predicate KeptByFilter(c: char) { IsLowerAlnum(c) || IsJsWhitespace(c) || c == '-' }

  /** Removes every character outside a-z, 0-9, whitespace and "-". */
  function KeepSlugChars(s: string): (r: string)
    ensures |r| <= |s|
  {
    if s == [] then []
    else if KeptByFilter(s[0]) then [s[0]] + KeepSlugChars(s[1..])
    else KeepSlugChars(s[1..])
  }

  /** The filter keeps exactly the characters it admits. */
  lemma {:induction false} KeepSlugCharsMembers(s: string)
    ensures forall c :: c in KeepSlugChars(s) <==> c in s && KeptByFilter(c)
  {
    if s != [] {
      KeepSlugCharsMembers(s[1..]);
      assert s == [s[0]] + s[1..];
    }
  }

  /**
   * Replaces every maximal run of whitespace by a single "-"; `inRun` says
   * whether the characters just before `s` were whitespace of the same run.
   */
  function SpacesToHyphens(s: string, inRun: bool): (r: string)
    ensures |r| <= |s|
  {
    if s == [] then []
    else if IsJsWhitespace(s[0]) then
      (if inRun then [] else "-") + SpacesToHyphens(s[1..], true)
    else [s[0]] + SpacesToHyphens(s[1..], false)
  }

  /**
   * No whitespace is left, every other character is kept, and the only
   * character added is "-".
   */
  lemma {:induction false} SpacesToHyphensMembers(s: string, inRun: bool)
    ensures var r := SpacesToHyphens(s, inRun);
            && (forall c :: c in r ==> !IsJsWhitespace(c))
            && (forall c :: c in r && c != '-' ==> c in s)
            && (forall c :: c in s && !IsJsWhitespace(c) ==> c in r)
  {
    if s != [] {
      SpacesToHyphensMembers(s[1..], IsJsWhitespace(s[0]));
      assert s == [s[0]] + s[1..];
    }
  }

  /** No two adjacent hyphens. */
  predicate NoDoubleHyphen(s: string) {
    forall i :: 0 <= i < |s| - 1 ==> !(s[i] == '-' && s[i + 1] == '-')
  }

  /**
   * Replaces every maximal run of "-" by a single "-"; `afterHyphen` says
   * whether the character just before `s` was a "-".
   */
  function CollapseHyphens(s: string, afterHyphen: bool): (r: string)
    ensures |r| <= |s|
    ensures NoDoubleHyphen(r)
    ensures afterHyphen && r != [] ==> r[0] != '-'
  {
    if s == [] then []
    else if s[0] == '-' then
      (if afterHyphen then [] else "-") + CollapseHyphens(s[1..], true)
    else [s[0]] + CollapseHyphens(s[1..], false)
  }

  /** Collapsing adds no character and loses none but surplus "-". */
  lemma {:induction false} CollapseHyphensMembers(s: string, afterHyphen: bool)
    ensures var r := CollapseHyphens(s, afterHyphen);
            && (forall c :: c in r ==> c in s)
            && (forall c :: c in s && c != '-' ==> c in r)
  {
    if s != [] {
      CollapseHyphensMembers(s[1..], s[0] == '-');
      assert s == [s[0]] + s[1..];
    }
  }

  /** `.replace(/^-|-$/g, "")`: one "-" off the front, one off the back. */
  function TrimHyphens(s: string): (r: string)
    ensures s == r || s == "-" + r || s == r + "-" || s == "-" + r + "-"
    ensures NoDoubleHyphen(s) ==> NoDoubleHyphen(r)
    ensures NoDoubleHyphen(s) && r != [] ==> r[0] != '-' && r[|r| - 1] != '-'
  {
    var t := if s != [] && s[0] == '-' then s[1..] else s;
    if t != [] && t[|t| - 1] == '-' then t[..|t| - 1] else t
  }

  /** Longest slug the generator produces. */
  const MaxSlugLength := 63

  /** `.slice(0, 63)`. */
  function CutToMax(s: string): (r: string)
    ensures |r| == if |s| <= MaxSlugLength then |s| else MaxSlugLength
    ensures r == s[..|r|]
  {
    if |s| <= MaxSlugLength then s else s[..MaxSlugLength]
  }

  predicate AllSlugChars(s: string) {
    forall i :: 0 <= i < |s| ==> TenantRouter.IsSlugChar(s[i])
  }

  /** The stages before the cut; they never leave a "-" at either end. */
  function TrimmedSlug(name: string): (r: string)
    ensures AllSlugChars(r)
    ensures NoDoubleHyphen(r)
    ensures r == [] || (r[0] != '-' && r[|r| - 1] != '-')
  {
    var kept := KeepSlugChars(ToLower(name));
    var spaced := SpacesToHyphens(kept, false);
    var collapsed := CollapseHyphens(spaced, false);
    var r := TrimHyphens(collapsed);
    assert forall c :: c in collapsed ==> TenantRouter.IsSlugChar(c) by {
      KeepSlugCharsMembers(ToLower(name));
      SpacesToHyphensMembers(kept, false);
      CollapseHyphensMembers(spaced, false);
      forall c | c in collapsed ensures TenantRouter.IsSlugChar(c) {
        assert c in spaced;
        if c != '-' {
          assert c in kept;
        }
      }
    }
    assert forall i :: 0 <= i < |r| ==> r[i] in collapsed;
    r
  }

  /** `generateSlug(name)`, as the page writes it. */
  function GenerateSlug(name: string): (r: string)
    ensures |r| <= MaxSlugLength
    ensures AllSlugChars(r)
    ensures NoDoubleHyphen(r)
    ensures r == [] || r[0] != '-'
    ensures |r| < MaxSlugLength && r != [] ==> r[|r| - 1] != '-'
  {
    CutToMax(TrimmedSlug(name))
  }

  // ---------------------------------------------------------------------
  // The form's slug rule.
  // ---------------------------------------------------------------------

  /** `^[a-z0-9][a-z0-9-]*[a-z0-9]$`. */
  predicate MatchesSlugPattern(s: string) {
    && |s| >= 2
    && IsLowerAlnum(s[0])
    && (forall i :: 1 <= i < |s| - 1 ==> TenantRouter.IsSlugChar(s[i]))
    && IsLowerAlnum(s[|s| - 1])
  }

  /** The zod rule for `slug`: at least 3, at most 63 characters, and the pattern. */
  predicate SlugRule(s: string) {
    3 <= |s| <= MaxSlugLength && MatchesSlugPattern(s)
  }

  /** The form accepts exactly the slugs the tenant router recognises. */
  lemma SlugRuleIsRouterSlug(s: string)
    ensures SlugRule(s) <==> TenantRouter.IsOrgSlug(s)
  {
  }

  /** The slug rule does not exclude the router's reserved names. */
  lemma ReservedNamesPassSlugRule()
    ensures "admin" in TenantRouter.ReservedPaths && SlugRule("admin")
    ensures "support" in TenantRouter.ReservedPaths && SlugRule("support")
  {
    assert TenantRouter.IsOrgSlug("admin");
    assert TenantRouter.IsOrgSlug("support");
  }

  /** A generated slug that is not cut short satisfies the pattern when it has two characters. */
  lemma GeneratedSlugShape(name: string)
    ensures var r := GenerateSlug(name);
            |r| >= 2 && r[|r| - 1] != '-' ==> MatchesSlugPattern(r)
  {
  }

  /** A generated slug passes the slug rule exactly when it is long enough and does not end in "-". */
  lemma GeneratedSlugRule(name: string)
    ensures var r := GenerateSlug(name);
            SlugRule(r) <==> |r| >= 3 && r[|r| - 1] != '-'
  {
    var r := GenerateSlug(name);
    if |r| >= 3 && r[|r| - 1] != '-' {
      assert IsLowerAlnum(r[0]) && IsLowerAlnum(r[|r| - 1]);
    }
  }

  /**
   * Trimming comes before the cut: a name of 62 letters or digits followed
   * by " b" generates a slug that ends in "-", which the slug rule rejects.
   */
  lemma TruncatedSlugEndsInHyphen(w: string)
    requires |w| == 62 && forall i :: 0 <= i < |w| ==> IsLowerAlnum(w[i])
    ensures GenerateSlug(w + " b") == w + "-"
    ensures !SlugRule(GenerateSlug(w + " b"))
  {
    var whole := w + "-b";
    TruncatedStages(w);
    assert CutToMax(whole) == w + "-" by {
      assert whole[..MaxSlugLength] == w + "-";
    }
  }

  lemma TruncatedStages(w: string)
    requires |w| == 62 && forall i :: 0 <= i < |w| ==> IsLowerAlnum(w[i])
    ensures TrimmedSlug(w + " b") == w + "-b"
  {
    var whole := w + "-b";
    assert ToLower(" b") == " b";
    assert KeepSlugChars(" b") == " b" by {
      assert " b"[1..] == "b";
      assert KeepSlugChars("b") == "b";
    }
    assert SpacesToHyphens(" b", false) == "-b" by {
      assert " b"[1..] == "b";
      assert SpacesToHyphens("b", true) == "b";
    }
    assert CollapseHyphens("-b", false) == "-b" by {
      assert "-b"[1..] == "b";
      assert CollapseHyphens("b", true) == "b";
    }
    assert CollapseHyphens(SpacesToHyphens(KeepSlugChars(ToLower(w + " b")), false), false) == whole by {
      PlainPrefixStages(w, " b");
    }
    assert TrimHyphens(whole) == whole by {
      assert whole[0] == w[0] && IsLowerAlnum(w[0]);
      assert whole[|whole| - 1] == 'b';
    }
  }

  /** Each stage passes a prefix of lower-case letters and digits through unchanged. */
  lemma PlainPrefixStages(w: string, t: string)
    requires forall i :: 0 <= i < |w| ==> IsLowerAlnum(w[i])
    ensures ToLower(w + t) == w + ToLower(t)
    ensures KeepSlugChars(ToLower(w + t)) == w + KeepSlugChars(ToLower(t))
    ensures SpacesToHyphens(w + KeepSlugChars(ToLower(t)), false)
         == w + SpacesToHyphens(KeepSlugChars(ToLower(t)), false)
    ensures CollapseHyphens(w + SpacesToHyphens(KeepSlugChars(ToLower(t)), false), false)
         == w + CollapseHyphens(SpacesToHyphens(KeepSlugChars(ToLower(t)), false), false)
  {
    ToLowerAppend(w, t);
    assert ToLower(w) == w;
    var u := ToLower(t);
    KeepPrefix(w, u);
    var v := KeepSlugChars(u);
    SpacesPrefix(w, v);
    CollapsePrefix(w, SpacesToHyphens(v, false));
  }

  lemma {:induction false} KeepPrefix(w: string, t: string)
    requires forall i :: 0 <= i < |w| ==> IsLowerAlnum(w[i])
    ensures KeepSlugChars(w + t) == w + KeepSlugChars(t)
  {
    if w == [] {
      assert w + t == t;
    } else {
      assert (w + t)[1..] == w[1..] + t;
      KeepPrefix(w[1..], t);
    }
  }

  lemma {:induction false} SpacesPrefix(w: string, t: string)
    requires forall i :: 0 <= i < |w| ==> IsLowerAlnum(w[i])
    ensures SpacesToHyphens(w + t, false) == w + SpacesToHyphens(t, false)
  {
    if w == [] {
      assert w + t == t;
    } else {
      assert (w + t)[0] == w[0] && !IsJsWhitespace(w[0]);
      assert (w + t)[1..] == w[1..] + t;
      assert SpacesToHyphens(w + t, false) == [w[0]] + SpacesToHyphens(w[1..] + t, false);
      SpacesPrefix(w[1..], t);
      assert [w[0]] + (w[1..] + SpacesToHyphens(t, false)) == w + SpacesToHyphens(t, false);
    }
  }

  lemma {:induction false} CollapsePrefix(w: string, t: string)
    requires forall i :: 0 <= i < |w| ==> IsLowerAlnum(w[i])
    ensures CollapseHyphens(w + t, false) == w + CollapseHyphens(t, false)
  {
    if w == [] {
      assert w + t == t;
    } else {
      assert (w + t)[1..] == w[1..] + t;
      CollapsePrefix(w[1..], t);
    }
  }

  /**
   * A slug that satisfies the rule and has no "--" (the rule allows one,
   * the generator never makes one) is its own generated slug.
   */
  lemma ValidSlugIsFixedPoint(s: string)
    requires SlugRule(s) && NoDoubleHyphen(s)
    ensures GenerateSlug(s) == s
    ensures GenerateSlugFixed(s) == s
  {
    CleanStagesKeep(s);
    assert CutToMax(s) == s;
  }

  lemma CleanStagesKeep(s: string)
    requires SlugRule(s) && NoDoubleHyphen(s)
    ensures TrimmedSlug(s) == s
  {
    SlugRuleShape(s);
    assert ToLower(s) == s by { SlugCharsLower(s); }
    assert KeepSlugChars(s) == s by { SlugCharsKept(s); KeepAll(s); }
    assert SpacesToHyphens(s, false) == s by { SlugCharsKept(s); SpacesNone(s); }
    assert CollapseHyphens(s, false) == s by { CollapseNone(s, false); }
    assert TrimHyphens(s) == s by { TrimNone(s); }
  }

  /** Trimming leaves alone a string with no "-" at either end. */
  lemma TrimNone(s: string)
    requires s != [] && s[0] != '-' && s[|s| - 1] != '-'
    ensures TrimHyphens(s) == s
  {
  }

  /** A slug that passes the rule is made of slug characters and starts and ends with neither "-". */
  lemma SlugRuleShape(s: string)
    requires SlugRule(s)
    ensures AllSlugChars(s) && s[0] != '-' && s[|s| - 1] != '-'
  {
  }

  lemma SlugCharsLower(s: string)
    requires AllSlugChars(s)
    ensures ToLower(s) == s
  {
    assert forall i :: 0 <= i < |s| ==> ToLower(s)[i] == s[i];
  }

  lemma SlugCharsKept(s: string)
    requires AllSlugChars(s)
    ensures forall i :: 0 <= i < |s| ==> KeptByFilter(s[i]) && !IsJsWhitespace(s[i])
  {
    forall i | 0 <= i < |s| ensures KeptByFilter(s[i]) && !IsJsWhitespace(s[i]) {
      assert TenantRouter.IsSlugChar(s[i]);
    }
  }

  lemma {:induction false} KeepAll(s: string)
    requires forall i :: 0 <= i < |s| ==> KeptByFilter(s[i])
    ensures KeepSlugChars(s) == s
  {
    if s != [] {
      KeepAll(s[1..]);
    }
  }

  lemma {:induction false} SpacesNone(s: string)
    requires forall i :: 0 <= i < |s| ==> !IsJsWhitespace(s[i])
    ensures SpacesToHyphens(s, false) == s
  {
    if s != [] {
      SpacesNone(s[1..]);
    }
  }

  lemma {:induction false} CollapseNone(s: string, afterHyphen: bool)
    requires NoDoubleHyphen(s)
    requires afterHyphen && s != [] ==> s[0] != '-'
    ensures CollapseHyphens(s, afterHyphen) == s
  {
    if s != [] {
      CollapseNone(s[1..], s[0] == '-');
    }
  }

  // ---------------------------------------------------------------------
  // Corrected generator: drop a "-" the cut leaves at the end.
  // ---------------------------------------------------------------------

  /** A clean slug meets the rule exactly when it is long enough. */
  lemma CleanSlugRule(r: string)
    requires |r| <= MaxSlugLength && AllSlugChars(r)
    requires r == [] || (r[0] != '-' && r[|r| - 1] != '-')
    ensures SlugRule(r) <==> |r| >= 3
  {
    if |r| >= 3 {
      assert IsLowerAlnum(r[0]) && IsLowerAlnum(r[|r| - 1]);
    }
  }

  /** Removes a single "-" at the end. */
  function DropTrailingHyphen(s: string): (r: string)
    ensures s == r || s == r + "-"
    ensures r == s[..|r|]
    ensures NoDoubleHyphen(s) ==> NoDoubleHyphen(r) && (r == [] || r[|r| - 1] != '-')
    ensures AllSlugChars(s) ==> AllSlugChars(r)
    ensures s != [] && s[0] != '-' && r != [] ==> r[0] != '-'
  {
    if s != [] && s[|s| - 1] == '-' then s[..|s| - 1] else s
  }

  /**
   * The generator with the cut's trailing "-" removed: same characters, no
   * "--", neither end a "-", equal to `GenerateSlug` whenever that already
   * ends well, and the slug rule then reduces to the length check.
   */
  function GenerateSlugFixed(name: string): (r: string)
    ensures |r| <= MaxSlugLength
    ensures AllSlugChars(r)
    ensures NoDoubleHyphen(r)
    ensures r == [] || (r[0] != '-' && r[|r| - 1] != '-')
    ensures var g := GenerateSlug(name);
            (g == [] || g[|g| - 1] != '-') ==> r == g
    ensures SlugRule(r) <==> |r| >= 3
  {
    var r := DropTrailingHyphen(GenerateSlug(name));
    CleanSlugRule(r);
    r
  }

  // ---------------------------------------------------------------------
  // The form.
  // ---------------------------------------------------------------------

  datatype Tier = Free | Pro | Enterprise

  /** What the form sends to create the organization. */
  datatype CreateTenantRequest = CreateTenantRequest(name: string, slug: string, ownerEmail: string, tier: Tier)

  /**
   * The form's schema: a name of 2 to 100 characters, the slug rule and an
   * owner e-mail address the e-mail check accepted.
   */
  predicate FormValid(name: string, slug: string, emailValid: bool) {
    2 <= |name| <= 100 && SlugRule(slug) && emailValid
  }

  class NewOrganizationForm {
    var name: string
    var slug: string
    var ownerEmail: string
    var tier: Tier
    var invitationLink: Option<string>
    var submitting: bool

    /** The form's default values. */
    constructor ()
      ensures name == "" && slug == "" && ownerEmail == "" && tier == Pro
      ensures invitationLink == None && !submitting
    {
      name, slug, ownerEmail, tier := "", "", "", Pro;
      invitationLink, submitting := None, false;
    }

    /** The slug follows the name as long as nobody has edited it by hand. */
    predicate SlugIsAutomatic()
      reads this
    {
      slug == "" || slug == GenerateSlug(name)
    }

    /**
     * A new name, as the page handles it: the slug is regenerated with
     * `generateSlug` when the current slug is empty or still the one
     * generated from the previous name.
     */
    method HandleNameChange(newName: string)
      modifies this
      ensures name == newName
      ensures old(SlugIsAutomatic()) ==> slug == GenerateSlug(newName) && SlugIsAutomatic()
      ensures !old(SlugIsAutomatic()) ==> slug == old(slug)
      ensures slug != old(slug) ==> (SlugRule(slug) <==> |slug| >= 3 && slug[|slug| - 1] != '-')
      ensures ownerEmail == old(ownerEmail) && tier == old(tier)
      ensures invitationLink == old(invitationLink) && submitting == old(submitting)
    {
      var currentSlug := slug;
      var expectedSlug := GenerateSlug(name);
      name := newName;
      if currentSlug == "" || currentSlug == expectedSlug {
        slug := GenerateSlug(newName);
        GeneratedSlugRule(newName);
      }
    }

    /** The slug follows the name under the corrected generator. */
    predicate SlugIsAutomaticFixed()
      reads this
    {
      slug == "" || slug == GenerateSlugFixed(name)
    }

    /** The name handler with the corrected generator in place of `generateSlug`. */
    method HandleNameChangeFixed(newName: string)
      modifies this
      ensures name == newName
      ensures old(SlugIsAutomaticFixed()) ==> slug == GenerateSlugFixed(newName) && SlugIsAutomaticFixed()
      ensures !old(SlugIsAutomaticFixed()) ==> slug == old(slug)
      ensures slug != old(slug) ==> (SlugRule(slug) <==> |slug| >= 3)
      ensures ownerEmail == old(ownerEmail) && tier == old(tier)
      ensures invitationLink == old(invitationLink) && submitting == old(submitting)
    {
      var currentSlug := slug;
      var expectedSlug := GenerateSlugFixed(name);
      name := newName;
      if currentSlug == "" || currentSlug == expectedSlug {
        slug := GenerateSlugFixed(newName);
      }
    }

    /** Typing in the slug field: only the slug changes. */
    method EditSlug(newSlug: string)
      modifies this
      ensures slug == newSlug
      ensures name == old(name) && ownerEmail == old(ownerEmail) && tier == old(tier)
      ensures invitationLink == old(invitationLink) && submitting == old(submitting)
    {
      slug := newSlug;
    }

    /**
     * Submission: nothing is sent unless the schema holds; `outcome` is the
     * invitation link of the created organization, or None when the request
     * failed. `submitting` is back to false afterwards.
     */
    method Submit(emailValid: bool, outcome: Option<string>) returns (sent: Option<CreateTenantRequest>)
      modifies this
      ensures sent.Some? <==> FormValid(name, slug, emailValid)
      ensures sent.Some? ==> sent.value == CreateTenantRequest(name, slug, ownerEmail, tier)
      ensures invitationLink == if sent.Some? && outcome.Some? then outcome else old(invitationLink)
      ensures submitting == (old(submitting) && sent.None?)
      ensures name == old(name) && slug == old(slug)
      ensures ownerEmail == old(ownerEmail) && tier == old(tier)
    {
      if !FormValid(name, slug, emailValid) {
        return None;
      }
      submitting := true;
      sent := Some(CreateTenantRequest(name, slug, ownerEmail, tier));
      if outcome.Some? {
        invitationLink := outcome;
      }
      submitting := false;
    }

    /** "Create Another": back to an empty form that keeps the chosen tier. */
    method CreateAnother()
      modifies this
      ensures invitationLink == None
      ensures name == "" && slug == "" && ownerEmail == ""
      ensures tier == old(tier) && submitting == old(submitting)
      ensures SlugIsAutomatic() && SlugIsAutomaticFixed()
    {
      invitationLink := None;
      name := "";
      slug := "";
      ownerEmail := "";
    }
  }

  /**
   * On the page as written, a name of 62 letters or digits followed by " b"
   * typed into a fresh form leaves a slug the schema rejects, so the form
   * cannot be submitted without editing the slug.
   */
  method LongNameBlocksSubmit(w: string, emailValid: bool, outcome: Option<string>)
    returns (form: NewOrganizationForm, sent: Option<CreateTenantRequest>)
    requires |w| == 62 && forall i :: 0 <= i < |w| ==> IsLowerAlnum(w[i])
    ensures form.slug == w + "-" && !SlugRule(form.slug)
    ensures sent == None
  {
    form := new NewOrganizationForm();
    form.HandleNameChange(w + " b");
    TruncatedSlugEndsInHyphen(w);
    sent := form.Submit(emailValid, outcome);
  }

  /** With the corrected generator the same name gives a slug the schema accepts. */
  method LongNameFixedSlugValid(w: string) returns (form: NewOrganizationForm)
    requires |w| == 62 && forall i :: 0 <= i < |w| ==> IsLowerAlnum(w[i])
    ensures form.slug == w && SlugRule(form.slug)
  {
    form := new NewOrganizationForm();
    form.HandleNameChangeFixed(w + " b");
    TruncatedSlugEndsInHyphen(w);
    assert DropTrailingHyphen(w + "-") == w;
  }
}
