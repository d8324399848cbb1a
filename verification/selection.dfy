/**
 * Which upstream provider the relay uses. The three credentials are read once
 * at startup; a provider is available when its credential is a non-empty
 * string. Groq comes first, then Together AI, then HuggingFace, and Demo mode
 * is used when no credential is set. HuggingFace is declared before Together
 * AI but tried after it.
 */
module Selection {

  datatype Provider = Groq | Together | HuggingFace | Demo

  /** The three credentials, in the order the server declares them. */
  datatype Credentials = Credentials(groq: string, huggingFace: string, together: string)

  /** The providers that need a credential, highest priority first. */
  const PriorityOrder: seq<Provider> := [Groq, Together, HuggingFace]

  /** The credential a provider is called with (Demo has none). */
  function KeyOf(keys: Credentials, p: Provider): (k: string)
    ensures p == Groq ==> k == keys.groq
    ensures p == Together ==> k == keys.together
    ensures p == HuggingFace ==> k == keys.huggingFace
    ensures p == Demo ==> k == ""
  {
    match p
    case Groq => keys.groq
    case Together => keys.together
    case HuggingFace => keys.huggingFace
    case Demo => ""
  }

  /** A provider is available when its credential is non-empty. */
  predicate Available(keys: Credentials, p: Provider)
  {
    p != Demo && KeyOf(keys, p) != ""
  }

  /** Position of a provider in the priority chain; Demo comes after all of them. */
  function Rank(p: Provider): (n: nat)
    ensures n <= |PriorityOrder|
    ensures n < |PriorityOrder| ==> PriorityOrder[n] == p
    ensures n == |PriorityOrder| <==> p == Demo
  {
    match p
    case Groq => 0
    case Together => 1
    case HuggingFace => 2
    case Demo => 3
  }

  /**
   * The chat handler's chain of conditionals. The result is the available
   * provider of highest priority, every provider before it is unavailable,
   * and Demo is chosen exactly when no provider is available.
   */
  function Select(keys: Credentials): (p: Provider)
    ensures p != Demo ==> Available(keys, p)
    ensures forall j :: 0 <= j < Rank(p) ==> !Available(keys, PriorityOrder[j])
    ensures p == Demo <==> forall q :: !Available(keys, q)
  {
    if keys.groq != "" then assert Available(keys, Groq); Groq
    else if keys.together != "" then assert Available(keys, Together); Together
    else if keys.huggingFace != "" then assert Available(keys, HuggingFace); HuggingFace
    else Demo
  }

  /** The name `/health` reports for a provider. */
  function HealthLabel(p: Provider): (name: string)
    ensures name != ""
    ensures name == "Demo" <==> p == Demo
  {
    match p
    case Groq => "Groq"
    case Together => "Together AI"
    case HuggingFace => "HuggingFace"
    case Demo => "Demo"
  }

  /** The `/health` handler's own chain of conditionals, giving a name. */
  function HealthName(keys: Credentials): (name: string)
    ensures name == "Demo" <==> keys.groq == "" && keys.together == "" && keys.huggingFace == ""
  {
    if keys.groq != "" then "Groq"
    else if keys.together != "" then "Together AI"
    else if keys.huggingFace != "" then "HuggingFace"
    else "Demo"
  }

  /**
   * The reference definition of the priority chain: walk a priority list and
   * take the first available provider, or Demo at the end of the list.
   */
  function FirstAvailable(keys: Credentials, order: seq<Provider>): (p: Provider)
    ensures p == Demo || p in order
  {
    if order == [] then Demo
    else if Available(keys, order[0]) then order[0]
    else FirstAvailable(keys, order[1..])
  }

  /** The handler's chain agrees with the walk over the priority list. */
  lemma SelectIsFirstAvailable(keys: Credentials)
    ensures Select(keys) == FirstAvailable(keys, PriorityOrder)
  {
    var o := PriorityOrder;
    assert o[1..] == [Together, HuggingFace];
    assert o[1..][1..] == [HuggingFace];
    assert o[1..][1..][1..] == [];
    assert FirstAvailable(keys, [HuggingFace]) == if Available(keys, HuggingFace) then HuggingFace else Demo;
    assert FirstAvailable(keys, [Together, HuggingFace])
        == if Available(keys, Together) then Together else FirstAvailable(keys, [HuggingFace]);
  }

  /** `/health` reports exactly the provider the chat handler would select. */
  lemma HealthReportsSelection(keys: Credentials)
    ensures HealthName(keys) == HealthLabel(Select(keys))
  {
  }

  /** Distinct providers have distinct `/health` names, so the name identifies the provider. */
  lemma HealthLabelInjective(p: Provider, q: Provider)
    requires HealthLabel(p) == HealthLabel(q)
    ensures p == q
  {
  }

  /**
   * A credential of lower priority never overrides an available one: if two
   * configurations agree on every credential up to and including the selected
   * provider's, they select the same provider.
   */
  lemma LowerPriorityKeysIgnored(keys: Credentials, other: Credentials)
    requires forall j :: 0 <= j <= Rank(Select(keys)) && j < |PriorityOrder| ==>
               KeyOf(other, PriorityOrder[j]) == KeyOf(keys, PriorityOrder[j])
    ensures Select(other) == Select(keys)
  {
    var o := PriorityOrder;
    assert KeyOf(other, o[0]) == KeyOf(keys, o[0]);
    match Select(keys)
    case Groq =>
    case Together =>
    case HuggingFace =>
      assert KeyOf(other, o[1]) == KeyOf(keys, o[1]);
    case Demo =>
      assert KeyOf(other, o[1]) == KeyOf(keys, o[1]);
      assert KeyOf(other, o[2]) == KeyOf(keys, o[2]);
  }

  /** With exactly one credential set, that provider is selected and reported. */
  lemma SingleCredentialSelected(keys: Credentials, p: Provider)
    requires p != Demo && KeyOf(keys, p) != ""
    requires forall q :: q != p ==> KeyOf(keys, q) == ""
    ensures Select(keys) == p && HealthName(keys) == HealthLabel(p)
  {
  }
}
