/** The exception taxonomy of src/utils/exceptions.py: the kinds, the class
    each derives from, and how each constructor builds its message. */
module Exceptions {
  import opened Py

  datatype Kind =
    | ProductIdeationError
    | ConfigurationError
    | APIError
    | RateLimitError
    | AuthenticationError
    | ModelNotFoundError
    | IdeationError
    | PersonaGenerationError
    | MarketSimulationError
    | ValidationError
    | InsufficientDataError
    | WorkflowError
    | ImageGenerationError
    | OutputGenerationError
    | FileOperationError
      /** An exception of Python's own (ValueError, TypeError, KeyError, ...). */
    | Builtin(name: string)

  /** A raised exception: its class and `str(e)`. */
  datatype Error = Error(kind: Kind, message: string)

  /** Distance from the root of the custom hierarchy. */
  function Depth(k: Kind): nat {
    match k
    case ProductIdeationError => 0
    case Builtin(_) => 0
    case RateLimitError => 2
    case AuthenticationError => 2
    case ModelNotFoundError => 2
    case _ => 1
  }

  /** The class `k` directly derives from, when that class is one of ours. */
  function Parent(k: Kind): (p: Option<Kind>)
    ensures p.Some? ==> Depth(p.value) < Depth(k)
  {
    match k
    case ProductIdeationError => None
    case Builtin(_) => None
    case RateLimitError => Some(APIError)
    case AuthenticationError => Some(APIError)
    case ModelNotFoundError => Some(APIError)
    case _ => Some(ProductIdeationError)
  }

  /** `issubclass(k, ancestor)` */
  predicate IsA(k: Kind, ancestor: Kind)
    decreases Depth(k)
  {
    k == ancestor || (Parent(k).Some? && IsA(Parent(k).value, ancestor))
  }

  /** Every kind the project defines is a ProductIdeationError; Python's own are not. */
  lemma EveryCustomKindIsProductIdeationError(k: Kind)
    ensures IsA(k, ProductIdeationError) <==> !k.Builtin?
  {
  }

  /** Exactly the three API failures and APIError itself are APIErrors. */
  lemma ApiErrorFamily(k: Kind)
    ensures IsA(k, APIError) <==> k in {APIError, RateLimitError, AuthenticationError, ModelNotFoundError}
  {
  }

  const RateLimitDefault: string :=
    "OpenRouter rate limit exceeded. Try reducing 'personas_count' in config/settings.yaml or adjusting 'api.rate_limit_calls' settings."

  const AuthenticationDefault: string :=
    "OpenRouter API authentication failed. Please check that OPENROUTER_API_KEY is set correctly in .env file. Get a key at: https://openrouter.ai/keys"

  const PersonaGenerationDefault: string :=
    "Failed to generate personas. This may be due to:\n  1. API timeout or rate limiting\n  2. JSON parsing errors from the model\n  3. Model not supporting structured output\nTry reducing 'personas_count' or switching to a different model."

  const ImageGenerationDefault: string :=
    "Image generation failed. This may be due to:\n  1. Model not supporting image generation\n  2. Content policy violation\n  3. API timeout\nYou can disable image generation in config/settings.yaml: features.enable_image_generation = false"

  /** The message a constructor uses when called without one: four classes
      have a fixed text; the others derive from Exception, whose `str` is empty. */
  function DefaultMessage(k: Kind): string {
    match k
    case RateLimitError => RateLimitDefault
    case AuthenticationError => AuthenticationDefault
    case PersonaGenerationError => PersonaGenerationDefault
    case ImageGenerationError => ImageGenerationDefault
    case _ => ""
  }

  /** The kinds built from an optional message (the other three take other arguments). */
  predicate TakesMessage(k: Kind) {
    !(k.ModelNotFoundError? || k.InsufficientDataError? || k.FileOperationError?)
  }

  /** `K(message)` or `K()` for a kind built from an optional message. */
  function Raise(k: Kind, message: Option<string>): (e: Error)
    requires TakesMessage(k)
    ensures e.kind == k
    ensures message.Some? ==> e.message == message.value
    ensures message.None? ==> e.message == DefaultMessage(k)
    ensures message.None? ==>
      (e.message != "" <==> k in {RateLimitError, AuthenticationError, PersonaGenerationError, ImageGenerationError})
  {
    Error(k, message.GetOr(DefaultMessage(k)))
  }

  const ModelNotFoundTail: string :=
    "' not found or not available. Check available models at https://openrouter.ai/models or update your model selection in config/settings.yaml"

  /** `ModelNotFoundError(model)`: the message names the model. */
  function ModelNotFound(model: string): (e: Error)
    ensures e.kind == ModelNotFoundError && IsA(e.kind, APIError)
    ensures Contains(e.message, model)
  {
    ContainsMiddle("Model '", model, ModelNotFoundTail);
    Error(ModelNotFoundError, "Model '" + model + ModelNotFoundTail)
  }

  const InsufficientDataHead: string := "Insufficient data for reliable analysis. Required at least "
  const InsufficientDataTail: string := ". Increase 'personas_count' in config/settings.yaml for better results."

  /** `InsufficientDataError(required, actual)`: the message states both counts. */
  function InsufficientData(required: int, actual: int): (e: Error)
    ensures e.kind == InsufficientDataError
    ensures Contains(e.message, IntToString(required))
    ensures Contains(e.message, IntToString(actual))
  {
    var a := InsufficientDataHead;
    var r := IntToString(required);
    var b := " responses, got ";
    var n := IntToString(actual);
    var c := InsufficientDataTail;
    var msg := a + r + b + n + c;
    assert msg == a + r + (b + n + c);
    ContainsMiddle(a, r, b + n + c);
    assert msg == (a + r + b) + n + c;
    ContainsMiddle(a + r + b, n, c);
    Error(InsufficientDataError, msg)
  }

  /** `FileOperationError(operation, path, reason)` */
  function FileOperation(operation: string, path: string, reason: Option<string>): Error {
    var base := "Failed to " + operation + " file: " + path;
    if reason.Some? && reason.value != "" then Error(FileOperationError, base + " - " + reason.value)
    else Error(FileOperationError, base)
  }

  /** The message is "Failed to {op} file: {path}", followed by " - {reason}"
      exactly when a non-empty reason is given. */
  lemma FileOperationMessage(operation: string, path: string, reason: Option<string>)
    ensures var e := FileOperation(operation, path, reason);
      && e.kind == FileOperationError
      && StartsWith(e.message, "Failed to " + operation + " file: " + path)
      && Contains(e.message, operation) && Contains(e.message, path)
      && (reason.Some? && reason.value != "" <==> |e.message| > |"Failed to " + operation + " file: " + path|)
      && (reason.Some? && reason.value != "" ==> e.message[|e.message| - |reason.value|..] == reason.value)
  {
    var e := FileOperation(operation, path, reason);
    var head := "Failed to " + operation + " file: " + path;
    var tail := if reason.Some? && reason.value != "" then " - " + reason.value else "";
    assert e.message == head + tail;
    assert e.message[..|head|] == head;
    ContainsMiddle("Failed to ", operation, " file: " + path + tail);
    assert e.message == "Failed to " + operation + (" file: " + path + tail);
    ContainsMiddle("Failed to " + operation + " file: ", path, tail);
    assert e.message == ("Failed to " + operation + " file: ") + path + tail;
  }
}
