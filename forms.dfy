/**
 * What the three pages share: the validator's field-to-message map, the `validationErrors`
 * state the edit dialogs display, and the submission gate between them.
 */
module Forms {
  import opened Wrappers

  /** A validator's output: one message per checked field, `""` meaning valid. */
  type Messages = map<string, string>

  /** The `validationErrors` state: a present key may hold `undefined`. */
  type ErrorState = map<string, Option<string>>

  /** `!!value.length`: the value is present exactly when it is not the empty string. */
  predicate ValidateRequired(value: string): (ok: bool)
    ensures ok <==> value != ""
  {
    |value| > 0
  }

  /** `Object.values(m).some((error) => error)`: some message is non-empty. */
  predicate HasError(m: Messages): (b: bool)
    ensures !b <==> m.Values <= {""}
  {
    SomeMessageIsAValue(m);
    exists k :: k in m && m[k] != ""
  }

  lemma SomeMessageIsAValue(m: Messages)
    ensures (exists k :: k in m && m[k] != "") <==> !(m.Values <= {""})
  {
    if exists k :: k in m && m[k] != "" {
      var k :| k in m && m[k] != "";
      assert m[k] in m.Values;
    }
    if !(m.Values <= {""}) {
      var v :| v in m.Values && v != "";
      var k :| k in m && m[k] == v;
    }
  }

  /** The error state shown after a rejected submission: `setValidationErrors(m)`. */
  function Shown(m: Messages): (e: ErrorState)
    ensures e.Keys == m.Keys
    ensures forall k :: k in m ==> e[k] == Some(m[k])
  {
    map k | k in m :: Some(m[k])
  }

  /** `{...e, [field]: undefined}`, run when a field gains focus. */
  function Cleared(e: ErrorState, field: string): (r: ErrorState)
    ensures r.Keys == e.Keys + {field}
    ensures r[field] == None
    ensures forall k :: k in e && k != field ==> r[k] == e[k]
  {
    e[field := None]
  }

  /** `!!validationErrors?.[field]`: the dialog marks the field as erroneous. */
  predicate ShowsError(e: ErrorState, field: string): (b: bool)
    ensures b <==> field in e && e[field] !in {None, Some("")}
  {
    field in e && e[field].Some? && e[field].value != ""
  }

  /** After a rejection the dialog marks exactly the fields whose message is non-empty. */
  lemma ShownMarksFailedFields(m: Messages, field: string)
    ensures ShowsError(Shown(m), field) <==> field in m && m[field] != ""
  {
  }

  /** A focused field is no longer marked; the marks on the other fields stay. */
  lemma ClearedUnmarksOnlyField(e: ErrorState, field: string, other: string)
    requires other != field
    ensures !ShowsError(Cleared(e, field), field)
    ensures ShowsError(Cleared(e, field), other) <==> ShowsError(e, other)
  {
  }

  /** The outcome of a save: rejected with the validator's messages, or the payload to send. */
  datatype Submission<P> = Rejected(errors: Messages) | Accepted(payload: P)
}
