/** Interpretation of Kraken's response envelope, once the HTTP body has been
    parsed: an `error` list (absent or a list of strings) and a `result`. */
module Transport {
  import opened Wrappers
  import opened Text

  /** The parsed envelope; `error == None` is an absent error list. */
  datatype Envelope<T> = Envelope(error: Option<seq<string>>, result: T)

  const UnknownError: string := "Kraken API returned an unknown error"

  /** `e.startsWith('E')`: Kraken marks errors with a leading `E` and
      warnings with a leading `W`. */
  predicate IsErrorEntry(e: string)
  {
    |e| > 0 && e[0] == 'E'
  }

  /** `e.substr(1)`. */
  function StripSigil(e: string): string
  {
    if e == "" then "" else e[1..]
  }

  /** `errors.filter(e => e.startsWith('E'))`. */
  function ErrorEntries(errors: seq<string>): (r: seq<string>)
    ensures |r| <= |errors|
    ensures forall e :: e in r <==> e in errors && IsErrorEntry(e)
  {
    if errors == [] then []
    else if IsErrorEntry(errors[0]) then [errors[0]] + ErrorEntries(errors[1..])
    else ErrorEntries(errors[1..])
  }

  /** The error entries with their `E` removed, in their original order. */
  function ErrorMessages(errors: seq<string>): (messages: seq<string>)
    ensures |messages| <= |errors|
    ensures forall i :: 0 <= i < |messages| ==> ['E'] + messages[i] in errors
  {
    var kept := ErrorEntries(errors);
    var messages := seq(|kept|, i requires 0 <= i < |kept| => StripSigil(kept[i]));
    assert forall i :: 0 <= i < |messages| ==> ['E'] + messages[i] in errors by {
      forall i | 0 <= i < |messages| ensures ['E'] + messages[i] in errors {
        var e := kept[i];
        assert e in kept;
        assert IsErrorEntry(e) && messages[i] == e[1..];
        assert ['E'] + e[1..] == e;
      }
    }
    messages
  }

  /** The body of `makeRequest` after parsing: a non-empty error list is
      always a failure; otherwise the result is returned as it came. */
  function Interpret<T>(response: Envelope<T>): (r: Result<T, string>)
    ensures r.Success? <==> response.error.None? || response.error.value == []
    ensures r.Success? ==> r.value == response.result
    ensures r.Failure? && ErrorMessages(response.error.value) == [] ==> r.error == UnknownError
  {
    if response.error.Some? && |response.error.value| > 0 then
      var messages := ErrorMessages(response.error.value);
      if |messages| <= 0 then Failure(UnknownError)
      else Failure(Join(messages, "\n"))
    else Success(response.result)
  }

  /** Filtering keeps the order: it distributes over concatenation. */
  lemma {:induction false} ErrorEntriesAppend(a: seq<string>, b: seq<string>)
    ensures ErrorEntries(a + b) == ErrorEntries(a) + ErrorEntries(b)
  {
    if a == [] {
      assert a + b == b;
    } else {
      assert (a + b)[0] == a[0] && (a + b)[1..] == a[1..] + b;
      ErrorEntriesAppend(a[1..], b);
    }
  }

  /** An entry is kept exactly when it starts with `E`. */
  lemma ErrorEntriesSingle(e: string)
    ensures ErrorEntries([e]) == if IsErrorEntry(e) then [e] else []
  {
  }

  /** There are no messages exactly when no entry starts with `E`. */
  lemma NoMessagesIffNoErrorEntry(errors: seq<string>)
    ensures ErrorMessages(errors) == [] <==> forall e :: e in errors ==> !IsErrorEntry(e)
  {
    var kept := ErrorEntries(errors);
    if kept != [] {
      assert kept[0] in kept;
    }
  }

  /** A non-empty error list with at least one `E` entry fails with a message
      whose lines are the `E` entries, sigil removed, in their order, as long
      as no entry itself contains a line break. */
  lemma FailureMessageLines<T>(response: Envelope<T>)
    requires response.error.Some?
    requires exists e :: e in response.error.value && IsErrorEntry(e)
    requires forall e :: e in response.error.value ==> '\n' !in e
    ensures Interpret(response).Failure?
    ensures Split(Interpret(response).error, '\n') == ErrorMessages(response.error.value)
  {
    var errors := response.error.value;
    var kept := ErrorEntries(errors);
    var messages := ErrorMessages(errors);
    NoMessagesIffNoErrorEntry(errors);
    forall i | 0 <= i < |messages| ensures '\n' !in messages[i] {
      assert kept[i] in kept;
      assert forall c :: c in StripSigil(kept[i]) ==> c in kept[i];
    }
    assert "\n" == ['\n'];
    SplitJoin(messages, '\n');
  }

  /** A response without any `E` entry in a non-empty error list fails with
      the fixed unknown-error message, whatever its result. */
  lemma WarningsOnlyIsUnknownError<T>(response: Envelope<T>)
    requires response.error.Some? && response.error.value != []
    requires forall e :: e in response.error.value ==> !IsErrorEntry(e)
    ensures Interpret(response) == Failure(UnknownError)
  {
    NoMessagesIffNoErrorEntry(response.error.value);
  }

  /** `{"error": ["EGeneral:Invalid arguments"]}` fails with
      "General:Invalid arguments". */
  lemma GeneralErrorExample<T>(result: T)
    ensures Interpret(Envelope(Some(["EGeneral:Invalid arguments"]), result))
         == Failure("General:Invalid arguments")
  {
  }

  /** `{"error": [], "result": r}` resolves with `r`. */
  lemma EmptyErrorListExample<T>(result: T)
    ensures Interpret(Envelope(Some([]), result)) == Success(result)
  {
  }

  /** `{"error": ["WSomething"]}` fails with the unknown-error message. */
  lemma WarningExample<T>(result: T)
    ensures Interpret(Envelope(Some(["WSomething"]), result)) == Failure(UnknownError)
  {
  }

  /** A lone `"E"` entry is an error with an empty message, not an unknown
      error. */
  lemma BareSigilExample<T>(result: T)
    ensures Interpret(Envelope(Some(["E"]), result)) == Failure("")
  {
  }
}
