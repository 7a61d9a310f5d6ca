/** The records the modelled code passes around, with only the fields that
    code reads. The record classes themselves live in src/utils/models.py,
    which is not part of this model. */
module Records {
  import opened Py

  /** A parsed JSON or YAML value. A mapping keeps its keys in insertion
      order, as a Python dict does. */
  datatype Value =
    | Null
    | Bool(b: bool)
    | Int(i: int)
    | Float(f: real)
    | Str(s: string)
    | List(items: seq<Value>)
    | Dict(entries: seq<(string, Value)>)

  /** Python truthiness (`if v:`). */
  predicate Truthy(v: Value) {
    match v
    case Null => false
    case Bool(b) => b
    case Int(i) => i != 0
    case Float(f) => f != 0.0
    case Str(s) => s != ""
    case List(items) => items != []
    case Dict(entries) => entries != []
  }

  predicate HasKey(entries: seq<(string, Value)>, key: string) {
    exists i :: 0 <= i < |entries| && entries[i].0 == key
  }

  /** `d.get(key)` on a mapping: the value stored under `key`, if any. A
      Python dict holds each key once; where a sequence of entries holds a
      key twice, the first is read. Values built by `Put` and `Rekey` never
      hold a key twice; values handed in by the JSON parser are whatever the
      parser returns, so `json.loads` keeping the last of two equal keys is
      the parser's concern. */
  function Get(entries: seq<(string, Value)>, key: string): (r: Option<Value>)
    ensures r.Some? <==> HasKey(entries, key)
    ensures r.Some? ==> exists i :: 0 <= i < |entries| && entries[i] == (key, r.value)
  {
    if entries == [] then None
    else if entries[0].0 == key then Some(entries[0].1)
    else
      var r := Get(entries[1..], key);
      assert HasKey(entries, key) <==> HasKey(entries[1..], key) by {
        if HasKey(entries, key) {
          var i :| 0 <= i < |entries| && entries[i].0 == key;
          assert i > 0 && entries[1..][i - 1].0 == key;
        }
        if HasKey(entries[1..], key) {
          var i :| 0 <= i < |entries[1..]| && entries[1..][i].0 == key;
          assert entries[i + 1].0 == key;
        }
      }
      if r.Some? then
        var i :| 0 <= i < |entries[1..]| && entries[1..][i] == (key, r.value);
        assert entries[i + 1] == (key, r.value);
        r
      else r
  }

  /** A product concept as produced by the ideator; never changed in place. */
  datatype ProductConcept = ProductConcept(
    name: string,
    tagline: string,
    targetMarket: string,
    problemSolved: string,
    features: seq<string>,
    differentiators: seq<string>,
    pricingModel: string)

  /** A validated synthetic consumer: its name and the record it was built from. */
  datatype Persona = Persona(name: string, profile: seq<(string, Value)>)

  /** One persona's free-text reaction to a concept. */
  datatype PersonaResponse = PersonaResponse(
    personaName: string,
    interestResponse: string,
    disappointmentResponse: string,
    recommendationResponse: string,
    mainBenefit: string,
    concerns: seq<string>)

  /** The critic's feedback, as the refinement prompt it renders to. */
  datatype CriticFeedback = CriticFeedback(refinementPrompt: string)
}
