/**
  The record reference resolver: an object's API name gives the three endpoint
  templates of the bulk-import API (create, status, failures), and a batch id
  fills the one `%d` placeholder of the status and failures templates.
 */
module ImportPaths {
  import opened Wrappers

  datatype ImportObject = ImportObject(create: string, status: string, failures: string)

  /** The integer formatting verb that the status and failures templates carry. */
  const IntVerb := "%d"

  /** The built-in lead object: "leads", "leads/batch/%d" and "leads/batch/%d/failures". */
  const Leads := ImportObject("leads", "leads/batch/" + IntVerb, "leads/batch/" + IntVerb + "/failures")

  /** The static table of well-known objects; every other name is a custom object. */
  const ImportObjects: map<string, ImportObject> := map["lead" := Leads]

  const CustomPrefix := "customobjects/"
  const ImportSuffix := "/import"

  function ImportObjectForAPIName(apiName: string): (obj: ImportObject)
    ensures apiName == "lead" ==> obj == Leads
    ensures apiName != "lead" ==> obj.create == CustomPrefix + apiName + ImportSuffix
    ensures apiName != "lead" ==> obj.status == obj.create + "/" + IntVerb + "/status"
    ensures apiName != "lead" ==> obj.failures == obj.create + "/" + IntVerb + "/failures"
  {
    if apiName in ImportObjects then ImportObjects[apiName]
    else
      var create := CustomPrefix + apiName + ImportSuffix;
      ImportObject(create, create + "/" + IntVerb + "/status", create + "/" + IntVerb + "/failures")
  }

  // ---------------------------------------------------------------------------
  // Placeholders

  /**
    t holds exactly one formatting verb, and it is `%d`: the first `%` of t is
    followed by `d`, and no `%` comes after that pair.
   */
  predicate OneIntVerb(t: string)
  {
    && |t| > 0
    && if t[0] == '%' then |t| >= 2 && t[1] == 'd' && '%' !in t[2..] else OneIntVerb(t[1..])
  }

  // ---------------------------------------------------------------------------
  // Decimal formatting of the batch id, as `%d` prints an int

  function DigitChar(d: nat): (c: char)
    requires d < 10
    ensures '0' <= c <= '9'
  {
    "0123456789"[d]
  }

  /** The decimal digits of n, most significant first, without leading zeros. */
  function Digits(n: nat): (s: string)
    ensures |s| > 0 && s[0] != '-'
    ensures '%' !in s
  {
    if n < 10 then [DigitChar(n)] else Digits(n / 10) + [DigitChar(n % 10)]
  }

  function Decimal(id: int): (s: string)
    ensures |s| > 0 && '%' !in s
    ensures s[0] == '-' <==> id < 0
  {
    if id < 0 then "-" + Digits(-id) else Digits(id)
  }

  /** Digits prints decimal digits only, without a leading zero. */
  lemma {:induction false} DigitsAreCanonical(n: nat)
    ensures forall i :: 0 <= i < |Digits(n)| ==> '0' <= Digits(n)[i] <= '9'
    ensures Digits(n)[0] == '0' ==> n == 0
  {
    if n >= 10 {
      DigitsAreCanonical(n / 10);
      assert Digits(n)[0] == Digits(n / 10)[0];
    }
  }

  /** Decimal prints an optional `-` followed by canonical decimal digits. */
  lemma DecimalIsCanonical(id: int)
    ensures var digits := if id < 0 then Decimal(id)[1..] else Decimal(id);
            && |digits| > 0
            && (forall i :: 0 <= i < |digits| ==> '0' <= digits[i] <= '9')
            && (digits[0] == '0' ==> id == 0)
  {
    if id < 0 {
      assert Decimal(id)[1..] == Digits(-id);
      DigitsAreCanonical(-id);
    } else {
      DigitsAreCanonical(id);
    }
  }

  /** The value of a string of decimal digits; the inverse of Digits. */
  function DigitsValue(s: string): int
  {
    if |s| == 0 then 0 else 10 * DigitsValue(s[..|s| - 1]) + (s[|s| - 1] as int - '0' as int)
  }

  /** Reads back what Decimal prints. */
  function ParseDecimal(s: string): int
  {
    if |s| > 0 && s[0] == '-' then -DigitsValue(s[1..]) else DigitsValue(s)
  }

  lemma {:induction false} DigitsRoundTrip(n: nat)
    ensures DigitsValue(Digits(n)) == n
  {
    if n >= 10 {
      var s := Digits(n);
      assert s[..|s| - 1] == Digits(n / 10);
      DigitsRoundTrip(n / 10);
    } else {
      assert Digits(n) == [DigitChar(n)];
    }
  }

  /** The batch id written into a path can be read back from it. */
  lemma DecimalRoundTrip(id: int)
    ensures ParseDecimal(Decimal(id)) == id
  {
    var s := Decimal(id);
    if id < 0 {
      assert s[0] == '-';
      assert s[1..] == Digits(-id);
      DigitsRoundTrip(-id);
    } else {
      assert s == Digits(id);
      DigitsRoundTrip(id);
    }
  }

  /** fmt.Sprintf(template, id) for a template whose one verb is `%d`. */
  function FillBatchId(template: string, id: int): (path: string)
    requires OneIntVerb(template)
    ensures '%' !in path
    ensures |path| == |template| - 2 + |Decimal(id)|
  {
    if template[0] == '%' then Decimal(id) + template[2..]
    else [template[0]] + FillBatchId(template[1..], id)
  }

  /** `p + "%d" + q` is a well-formed template when p and q hold no `%`. */
  lemma {:induction false} SplitIsTemplate(p: string, q: string)
    requires '%' !in p && '%' !in q
    ensures OneIntVerb(p + "%d" + q)
  {
    var t := p + "%d" + q;
    if |p| == 0 {
      assert t == "%d" + q;
      assert t[2..] == q;
    } else {
      assert t[0] == p[0];
      assert t[1..] == p[1..] + "%d" + q;
      SplitIsTemplate(p[1..], q);
    }
  }

  /** Filling `p + "%d" + q` puts the decimal id where the placeholder was. */
  lemma {:induction false} FillSplit(p: string, q: string, id: int)
    requires '%' !in p && '%' !in q
    ensures OneIntVerb(p + "%d" + q)
    ensures FillBatchId(p + "%d" + q, id) == p + Decimal(id) + q
  {
    SplitIsTemplate(p, q);
    var t := p + "%d" + q;
    if |p| == 0 {
      assert t == "%d" + q;
      assert t[2..] == q;
    } else {
      assert t[0] == p[0];
      assert t[1..] == p[1..] + "%d" + q;
      FillSplit(p[1..], q, id);
    }
  }

  // ---------------------------------------------------------------------------
  // Properties of the resolver

  /** The lead status template, as text around its placeholder. */
  lemma LeadStatusTemplate(id: int)
    ensures OneIntVerb(Leads.status)
    ensures FillBatchId(Leads.status, id) == "leads/batch/" + Decimal(id)
  {
    var p, q := "leads/batch/", "";
    assert '%' !in p && '%' !in q;
    FillSplit(p, q, id);
    assert p + "%d" + q == Leads.status;
    assert p + Decimal(id) + q == "leads/batch/" + Decimal(id);
  }

  /** The lead failures template, as text around its placeholder. */
  lemma LeadFailuresTemplate(id: int)
    ensures OneIntVerb(Leads.failures)
    ensures FillBatchId(Leads.failures, id) == "leads/batch/" + Decimal(id) + "/failures"
  {
    var p, q := "leads/batch/", "/failures";
    assert '%' !in p && '%' !in q;
    FillSplit(p, q, id);
    assert p + "%d" + q == Leads.failures;
  }

  /** The templates synthesised for a custom object, each as text around its placeholder. */
  lemma {:induction false} CustomTemplates(apiName: string, id: int)
    requires apiName != "lead" && '%' !in apiName
    ensures '%' !in ImportObjectForAPIName(apiName).create
    ensures OneIntVerb(ImportObjectForAPIName(apiName).status)
    ensures OneIntVerb(ImportObjectForAPIName(apiName).failures)
    ensures FillBatchId(ImportObjectForAPIName(apiName).status, id)
            == ImportObjectForAPIName(apiName).create + "/" + Decimal(id) + "/status"
    ensures FillBatchId(ImportObjectForAPIName(apiName).failures, id)
            == ImportObjectForAPIName(apiName).create + "/" + Decimal(id) + "/failures"
  {
    var create := ImportObjectForAPIName(apiName).create;
    assert '%' !in CustomPrefix && '%' !in ImportSuffix;
    assert '%' !in create + "/";
    assert '%' !in "/status" && '%' !in "/failures";
    FillSplit(create + "/", "/status", id);
    FillSplit(create + "/", "/failures", id);
  }

  /**
    For an API name without `%`: the create template has no placeholder, the
    status and failures templates have exactly one, and it is `%d`.
   */
  lemma PlaceholderCounts(apiName: string)
    requires '%' !in apiName
    ensures '%' !in ImportObjectForAPIName(apiName).create
    ensures OneIntVerb(ImportObjectForAPIName(apiName).status)
    ensures OneIntVerb(ImportObjectForAPIName(apiName).failures)
  {
    if apiName == "lead" {
      LeadStatusTemplate(0);
      LeadFailuresTemplate(0);
    } else {
      CustomTemplates(apiName, 0);
    }
  }

  /** The path the create call posts to (bulk.go:108). */
  function CreateRequestPath(obj: ImportObject): string
  {
    obj.create + ".json?format=csv"
  }

  /** The path the status call reads (bulk.go:147-149). */
  function StatusRequestPath(obj: ImportObject, id: int): string
    requires OneIntVerb(obj.status)
  {
    FillBatchId(obj.status, id) + ".json"
  }

  /** The path the failures call reads (bulk.go:202-204). */
  function FailuresRequestPath(obj: ImportObject, id: int): string
    requires OneIntVerb(obj.failures)
  {
    FillBatchId(obj.failures, id) + ".json"
  }

  /** The three request paths of the lead object. */
  lemma LeadRequestPaths(id: int)
    ensures OneIntVerb(ImportObjectForAPIName("lead").status)
    ensures OneIntVerb(ImportObjectForAPIName("lead").failures)
    ensures CreateRequestPath(ImportObjectForAPIName("lead")) == "leads" + ".json?format=csv"
    ensures StatusRequestPath(ImportObjectForAPIName("lead"), id) == "leads/batch/" + Decimal(id) + ".json"
    ensures FailuresRequestPath(ImportObjectForAPIName("lead"), id)
            == "leads/batch/" + Decimal(id) + "/failures" + ".json"
  {
    LeadStatusTemplate(id);
    LeadFailuresTemplate(id);
  }

  /** The three request paths of a custom object, each embedding its API name. */
  lemma CustomRequestPaths(apiName: string, id: int)
    requires apiName != "lead" && '%' !in apiName
    ensures OneIntVerb(ImportObjectForAPIName(apiName).status)
    ensures OneIntVerb(ImportObjectForAPIName(apiName).failures)
    ensures CreateRequestPath(ImportObjectForAPIName(apiName))
            == "customobjects/" + apiName + "/import" + ".json?format=csv"
    ensures StatusRequestPath(ImportObjectForAPIName(apiName), id)
            == "customobjects/" + apiName + "/import" + "/" + Decimal(id) + "/status" + ".json"
    ensures FailuresRequestPath(ImportObjectForAPIName(apiName), id)
            == "customobjects/" + apiName + "/import" + "/" + Decimal(id) + "/failures" + ".json"
  {
    CustomTemplates(apiName, id);
  }

  /** Reads the API name back out of a reference's create template. */
  function APINameOf(obj: ImportObject): Option<string>
  {
    if obj == Leads then Some("lead")
    else if |obj.create| >= |CustomPrefix| + |ImportSuffix|
         && obj.create[..|CustomPrefix|] == CustomPrefix
         && obj.create[|obj.create| - |ImportSuffix|..] == ImportSuffix
    then Some(obj.create[|CustomPrefix|..|obj.create| - |ImportSuffix|])
    else None
  }

  /** Every reference embeds its API name recoverably. */
  lemma APINameRoundTrip(apiName: string)
    ensures APINameOf(ImportObjectForAPIName(apiName)) == Some(apiName)
  {
    var obj := ImportObjectForAPIName(apiName);
    if apiName != "lead" {
      var c := obj.create;
      assert obj != Leads by { assert |c| > |Leads.create|; }
      assert c[..|CustomPrefix|] == CustomPrefix;
      assert c[|c| - |ImportSuffix|..] == ImportSuffix;
      assert c[|CustomPrefix|..|c| - |ImportSuffix|] == apiName;
    }
  }

  /** Distinct API names never share a reference. */
  lemma ReferencesAreDistinct(a: string, b: string)
    requires a != b
    ensures ImportObjectForAPIName(a) != ImportObjectForAPIName(b)
  {
    APINameRoundTrip(a);
    APINameRoundTrip(b);
  }
}
