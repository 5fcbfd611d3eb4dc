/**
 * Ashmont::Errors: turns a gateway result (its coarse status) and a list of
 * field errors into a map from field to the list of messages for that field.
 *
 * The map is built in place by `AddError`; `Translate` is the value the
 * constructor leaves behind, and the lemmas below say what that value holds.
 */
module ErrorMessages {
  import opened Values

  /** Field to messages, each list in the order the messages were added. */
  type ErrorMap = map<Key, seq<string>>

  /**
   * What the translator reads of a gateway result (a credit card
   * verification or a transaction): a nil `status` is None, and so is a nil
   * `processor_response_text`.
   */
  datatype StatusReport = StatusReport(status: Option<string>, processorResponseText: Option<string>)

  /** One of the gateway's validation errors. */
  datatype FieldError = FieldError(attribute: string, message: string)

  const DeclinedMessage: string := "was denied by the payment processor with the message: "
  const MismatchMessage: string := "did not match"

  /** The field names (already lower-cased) that a recognised field error can be stored under. */
  const RecognisedFields: set<string> := {"number", "cvv", "expiration_month", "expiration_year"}

  /** ERROR_MESSAGE_PREFIXES[attribute]: the lookup is case-sensitive. */
  function MessagePrefix(attribute: string): Option<string>
  {
    if attribute == "number" then Some("Credit card number ")
    else if attribute == "CVV" then Some("CVV ")
    else if attribute == "expiration_month" then Some("Expiration month ")
    else if attribute == "expiration_year" then Some("Expiration year ")
    else None
  }

  /** String interpolation of a possibly nil value. */
  function Interpolated(text: Option<string>): string
  {
    match text
    case None => ""
    case Some(s) => s
  }

  function LowerChar(c: char): char
  {
    if 'A' <= c <= 'Z' then (c as int + 32) as char else c
  }

  /** `String#downcase` on the ASCII letters. */
  function Downcase(s: string): (r: string)
    ensures |r| == |s|
    ensures forall i :: 0 <= i < |s| ==> r[i] == LowerChar(s[i])
  {
    seq(|s|, i requires 0 <= i < |s| => LowerChar(s[i]))
  }

  // ---------------------------------------------------------------------
  // String#sub(pattern, ""): remove the first occurrence of a string.

  predicate OccursAt(s: string, p: string, i: nat)
  {
    i + |p| <= |s| && s[i..i + |p|] == p
  }

  /** The first index at or after `k` where `p` occurs in `s`. */
  function IndexFrom(s: string, p: string, k: nat): (r: Option<nat>)
    requires k <= |s|
    ensures r.Some? ==> k <= r.value && OccursAt(s, p, r.value)
    ensures r.Some? ==> forall j :: k <= j < r.value ==> !OccursAt(s, p, j)
    ensures r.None? ==> forall j :: k <= j ==> !OccursAt(s, p, j)
    decreases |s| - k
  {
    if OccursAt(s, p, k) then Some(k)
    else if k == |s| then None
    else IndexFrom(s, p, k + 1)
  }

  function IndexOf(s: string, p: string): (r: Option<nat>)
    ensures r.Some? ==> OccursAt(s, p, r.value) && forall j: nat :: j < r.value ==> !OccursAt(s, p, j)
    ensures r.None? ==> forall j: nat :: !OccursAt(s, p, j)
  {
    IndexFrom(s, p, 0)
  }

  /** `s.sub(p, "")`: putting `p` back where it was taken out gives `s` again. */
  function Sub(s: string, p: string): (r: string)
    ensures IndexOf(s, p).None? ==> r == s
    ensures IndexOf(s, p).Some? ==>
      var i := IndexOf(s, p).value;
      |r| + |p| == |s| && i <= |r| && r[..i] + p + r[i..] == s
  {
    match IndexOf(s, p)
    case None => s
    case Some(i) =>
      var r := s[..i] + s[i + |p|..];
      assert r[..i] == s[..i] && r[i..] == s[i + |p|..];
      assert s == s[..i] + s[i..i + |p|] + s[i + |p|..];
      r
  }

  /** A message that starts with the prefix loses exactly that prefix. */
  lemma SubLeadingPrefix(p: string, rest: string)
    ensures Sub(p + rest, p) == rest
  {
    assert OccursAt(p + rest, p, 0);
    assert (p + rest)[|p|..] == rest;
  }

  // ---------------------------------------------------------------------
  // The map the constructor builds.

  function MessagesAt(m: ErrorMap, k: Key): seq<string>
  {
    if k in m then m[k] else []
  }

  /** `add_error`: `@errors[attribute] ||= []` then `<<`. */
  function Appended(m: ErrorMap, k: Key, message: string): ErrorMap
  {
    m[k := MessagesAt(m, k) + [message]]
  }

  /** `parse_result`: the coarse status adds at most one message, under a symbol key. */
  function WithStatus(m: ErrorMap, result: StatusReport): ErrorMap
  {
    if result.status == Some("processor_declined") then
      Appended(m, Sym("number"), DeclinedMessage + Interpolated(result.processorResponseText))
    else if result.status == Some("gateway_rejected") then
      Appended(m, Sym("cvv"), MismatchMessage)
    else
      m
  }

  /** One step of `parse_remote_errors`. */
  function WithFieldError(m: ErrorMap, e: FieldError): ErrorMap
  {
    match MessagePrefix(e.attribute)
    case None => m
    case Some(prefix) => Appended(m, Str(Downcase(e.attribute)), Sub(e.message, prefix))
  }

  /** `parse_remote_errors` over a whole list, in list order. */
  function WithFieldErrors(m: ErrorMap, es: seq<FieldError>): ErrorMap
    decreases |es|
  {
    if es == [] then m
    else WithFieldError(WithFieldErrors(m, es[..|es| - 1]), es[|es| - 1])
  }

  /** The map `Errors.new(result, remote_errors)` holds. */
  function Translate(result: StatusReport, es: seq<FieldError>): ErrorMap
  {
    WithFieldErrors(WithStatus(map[], result), es)
  }

  // ---------------------------------------------------------------------
  // Reference definitions, independent of the map being grown.

  predicate Recognised(e: FieldError)
  {
    MessagePrefix(e.attribute).Some?
  }

  /** The message a recognised field error contributes. */
  function Stripped(e: FieldError): string
    requires Recognised(e)
  {
    Sub(e.message, MessagePrefix(e.attribute).value)
  }

  /** The messages of the recognised errors stored under field `name`, in input order. */
  function FieldMessages(es: seq<FieldError>, name: string): seq<string>
    decreases |es|
  {
    if es == [] then []
    else
      var e := es[|es| - 1];
      FieldMessages(es[..|es| - 1], name) + (if Recognised(e) && Downcase(e.attribute) == name then [Stripped(e)] else [])
  }

  /** How many field errors are recognised. */
  function RecognisedCount(es: seq<FieldError>): nat
    decreases |es|
  {
    if es == [] then 0
    else RecognisedCount(es[..|es| - 1]) + (if Recognised(es[|es| - 1]) then 1 else 0)
  }

  /** 1 when the status is one of the two that add a message, else 0. */
  function StatusCount(result: StatusReport): nat
  {
    if result.status == Some("processor_declined") || result.status == Some("gateway_rejected") then 1 else 0
  }

  /** Messages in the map, over all keys. */
  ghost function TotalMessages(m: ErrorMap): nat
    decreases |m|
  {
    if |m| == 0 then 0
    else
      var k := AnyKey(m);
      assert |m.Keys - {k}| == |m.Keys| - 1;
      |m[k]| + TotalMessages(m - {k})
  }

  ghost function AnyKey(m: ErrorMap): (k: Key)
    requires |m| > 0
    ensures k in m
  {
    assert m.Keys != {};
    var k :| k in m; k
  }

  // ---------------------------------------------------------------------
  // What the translation holds.

  lemma DowncaseRecognised(e: FieldError)
    requires Recognised(e)
    ensures Downcase(e.attribute) in RecognisedFields
  {
    var a := e.attribute;
    if a == "CVV" {
      assert Downcase(a) == "cvv";
    } else {
      assert Downcase(a) == a;
    }
  }

  /** Field errors never touch symbol keys; string keys gain exactly the recognised messages. */
  lemma {:induction false} WithFieldErrorsAt(m: ErrorMap, es: seq<FieldError>, k: Key)
    ensures k.Sym? ==> (k in WithFieldErrors(m, es) <==> k in m)
    ensures MessagesAt(WithFieldErrors(m, es), k) == MessagesAt(m, k) + (if k.Str? then FieldMessages(es, k.name) else [])
    ensures k.Str? && k !in m && k in WithFieldErrors(m, es) ==> k.name in RecognisedFields
    ensures k.Str? ==> (k in WithFieldErrors(m, es) <==> k in m || FieldMessages(es, k.name) != [])
    decreases |es|
  {
    if es != [] {
      var init, e := es[..|es| - 1], es[|es| - 1];
      WithFieldErrorsAt(m, init, k);
      if Recognised(e) {
        DowncaseRecognised(e);
      }
    }
  }

  /**
   * The coarse status is the only source of symbol keys: "processor_declined"
   * puts one message under :number, "gateway_rejected" puts "did not match"
   * under :cvv, and any other (or no) status adds no symbol key at all.
   */
  lemma TranslateStatusEntries(result: StatusReport, es: seq<FieldError>)
    ensures forall n :: Sym(n) in Translate(result, es) <==>
      (n == "number" && result.status == Some("processor_declined")) ||
      (n == "cvv" && result.status == Some("gateway_rejected"))
    ensures result.status == Some("processor_declined") ==>
      Translate(result, es)[Sym("number")] == [DeclinedMessage + Interpolated(result.processorResponseText)]
    ensures result.status == Some("gateway_rejected") ==>
      Translate(result, es)[Sym("cvv")] == [MismatchMessage]
  {
    var m := WithStatus(map[], result);
    forall n
      ensures (Sym(n) in Translate(result, es) <==> Sym(n) in m)
      ensures MessagesAt(Translate(result, es), Sym(n)) == MessagesAt(m, Sym(n))
    {
      WithFieldErrorsAt(m, es, Sym(n));
    }
  }

  /**
   * Every string key holds the recognised field errors for that lower-cased
   * attribute, prefix removed, in input order; no other string key appears,
   * and only the four recognised fields can appear at all.
   */
  lemma TranslateFieldEntries(result: StatusReport, es: seq<FieldError>)
    ensures forall n :: MessagesAt(Translate(result, es), Str(n)) == FieldMessages(es, n)
    ensures forall n :: Str(n) in Translate(result, es) <==> FieldMessages(es, n) != []
    ensures forall n :: Str(n) in Translate(result, es) ==> n in RecognisedFields
  {
    var m := WithStatus(map[], result);
    forall n
      ensures MessagesAt(Translate(result, es), Str(n)) == FieldMessages(es, n)
      ensures Str(n) in Translate(result, es) <==> FieldMessages(es, n) != []
      ensures Str(n) in Translate(result, es) ==> n in RecognisedFields
    {
      WithFieldErrorsAt(m, es, Str(n));
    }
  }

  /** Removing one key removes exactly its messages from the total, whichever key the total chose first. */
  lemma {:induction false} TotalWithout(m: ErrorMap, k: Key)
    requires k in m
    ensures TotalMessages(m) == |m[k]| + TotalMessages(m - {k})
    decreases |m|
  {
    var j := AnyKey(m);
    if j != k {
      assert |m.Keys - {j}| == |m.Keys| - 1;
      assert |m.Keys - {k}| == |m.Keys| - 1;
      TotalWithout(m - {j}, k);
      TotalWithout(m - {k}, j);
      assert m - {j} - {k} == m - {k} - {j};
    }
  }

  /** `add_error` only appends: the total grows by exactly one. */
  lemma TotalAppended(m: ErrorMap, k: Key, message: string)
    ensures TotalMessages(Appended(m, k, message)) == TotalMessages(m) + 1
  {
    var m' := Appended(m, k, message);
    TotalWithout(m', k);
    assert m' - {k} == m - {k};
    if k in m {
      TotalWithout(m, k);
    } else {
      assert m - {k} == m;
    }
  }

  /** Total messages = (1 if the status is one of the two literals, else 0) + recognised field errors. */
  lemma {:induction false} TranslateTotal(result: StatusReport, es: seq<FieldError>)
    ensures TotalMessages(Translate(result, es)) == StatusCount(result) + RecognisedCount(es)
    decreases |es|
  {
    if es == [] {
      var m := WithStatus(map[], result);
      assert TotalMessages(map[]) == 0;
      if StatusCount(result) == 1 {
        var k := if result.status == Some("processor_declined") then Sym("number") else Sym("cvv");
        TotalAppended(map[], k, m[k][0]);
      }
    } else {
      var init, e := es[..|es| - 1], es[|es| - 1];
      TranslateTotal(result, init);
      if Recognised(e) {
        TotalAppended(Translate(result, init), Str(Downcase(e.attribute)), Stripped(e));
      }
    }
  }

  /** "processor_declined" with response text "X" and no field errors. */
  lemma DeclinedExample()
    ensures Translate(StatusReport(Some("processor_declined"), Some("X")), [])
      == map[Sym("number") := ["was denied by the payment processor with the message: X"]]
  {
    var empty: ErrorMap := map[];
    var message := "was denied by the payment processor with the message: X";
    assert DeclinedMessage + "X" == message;
    assert MessagesAt(empty, Sym("number")) + [message] == [message];
    assert empty[Sym("number") := [message]] == map[Sym("number") := [message]];
  }

  /** "gateway_rejected" and no field errors. */
  lemma RejectedExample()
    ensures Translate(StatusReport(Some("gateway_rejected"), None), []) == map[Sym("cvv") := ["did not match"]]
  {
    var empty: ErrorMap := map[];
    assert MessagesAt(empty, Sym("cvv")) + [MismatchMessage] == [MismatchMessage];
    assert empty[Sym("cvv") := [MismatchMessage]] == map[Sym("cvv") := [MismatchMessage]];
  }

  /** A "CVV" field error is stored under "cvv" without its prefix. */
  lemma CvvExample()
    ensures Translate(StatusReport(None, None), [FieldError("CVV", "CVV is unsupported")])
      == map[Str("cvv") := ["is unsupported"]]
  {
    var empty: ErrorMap := map[];
    assert [FieldError("CVV", "CVV is unsupported")][..0] == [];
    assert Downcase("CVV") == "cvv";
    assert "CVV is unsupported" == "CVV " + "is unsupported";
    SubLeadingPrefix("CVV ", "is unsupported");
    assert MessagesAt(empty, Str("cvv")) + ["is unsupported"] == ["is unsupported"];
    assert empty[Str("cvv") := ["is unsupported"]] == map[Str("cvv") := ["is unsupported"]];
  }

  /** The lookup is case-sensitive: a lower-case "cvv" attribute is dropped. */
  lemma LowerCaseCvvExample()
    ensures Translate(StatusReport(None, None), [FieldError("cvv", "cvv is unsupported")]) == map[]
  {
    assert [FieldError("cvv", "cvv is unsupported")][..0] == [];
  }

  // ---------------------------------------------------------------------

  /** Ashmont::Errors: `@errors` is grown in place while the constructor parses its inputs. */
  class Errors {
    var errors: ErrorMap

    constructor (result: StatusReport, remoteErrors: seq<FieldError>)
      ensures errors == Translate(result, remoteErrors)
    {
      errors := map[];
      new;
      ParseResult(result);
      ParseRemoteErrors(remoteErrors);
    }

    /** `to_hash`: a copy of the map, which later reads also see unchanged. */
    method ToHash() returns (h: ErrorMap)
      ensures h == errors
    {
      h := errors;
    }

    method ParseResult(result: StatusReport)
      modifies this
      ensures errors == WithStatus(old(errors), result)
    {
      if result.status == Some("processor_declined") {
        AddError(Sym("number"), DeclinedMessage + Interpolated(result.processorResponseText));
      } else if result.status == Some("gateway_rejected") {
        AddError(Sym("cvv"), MismatchMessage);
      }
    }

    method ParseRemoteErrors(remoteErrors: seq<FieldError>)
      modifies this
      ensures errors == WithFieldErrors(old(errors), remoteErrors)
    {
      for i := 0 to |remoteErrors|
        invariant errors == WithFieldErrors(old(errors), remoteErrors[..i])
      {
        var error := remoteErrors[i];
        var prefix := MessagePrefix(error.attribute);
        if prefix.Some? {
          var message := Sub(error.message, prefix.value);
          AddError(Str(Downcase(error.attribute)), message);
        }
        assert remoteErrors[..i + 1][..i] == remoteErrors[..i];
      }
      assert remoteErrors[..|remoteErrors|] == remoteErrors;
    }

    method AddError(attribute: Key, message: string)
      modifies this
      ensures errors == Appended(old(errors), attribute, message)
    {
      if attribute !in errors {
        errors := errors[attribute := []];
      }
      errors := errors[attribute := errors[attribute] + [message]];
    }
  }
}
