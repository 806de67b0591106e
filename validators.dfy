/**
 * The input normaliser (core/validators.py): default subject and body, truncation
 * to the configured lengths, and the lower-cased text used for matching.
 *
 * An email record is a dictionary from field names to strings; `validate_email_data`
 * and `_truncate_fields` overwrite its entries in place, so the record is an object
 * whose `fields` map the methods reassign. A missing or empty string is what Python
 * treats as a falsy field here.
 */
module Validators {
  import opened Text
  import opened ConfigModels

  const SubjectKey: string := "subject"
  const BodyKey: string := "testo_email"
  const SenderKey: string := "sender"
  const DefaultSubject: string := "No Subject"

  /** A mutable email record, the dictionary the caller hands over. */
  class EmailData {
    var fields: map<string, string>

    constructor (fields: map<string, string>)
      ensures this.fields == fields
    {
      this.fields := fields;
    }
  }

  /** The subject after defaulting: a missing or empty one becomes "No Subject". */
  function DefaultedSubject(fields: map<string, string>): (s: string)
    ensures s != []
    ensures SubjectKey in fields && fields[SubjectKey] != [] ==> s == fields[SubjectKey]
  {
    if SubjectKey !in fields || fields[SubjectKey] == [] then DefaultSubject else fields[SubjectKey]
  }

  /** The body after defaulting: a missing or empty one becomes the defaulted subject,
      so it is never empty before truncation. */
  function DefaultedBody(fields: map<string, string>): (b: string)
    ensures b != []
    ensures BodyKey in fields && fields[BodyKey] != [] ==> b == fields[BodyKey]
    ensures (BodyKey !in fields || fields[BodyKey] == []) ==> b == DefaultedSubject(fields)
  {
    if BodyKey !in fields || fields[BodyKey] == [] then DefaultedSubject(fields) else fields[BodyKey]
  }

  /** `s[:limit]` when `s` is longer than `limit`, otherwise `s` unchanged. */
  function Truncate(s: string, limit: int): (r: string)
    ensures |r| <= |s| && r == s[..|r|]
    ensures |s| <= limit ==> r == s
    ensures limit >= 0 ==> |r| == if |s| <= limit then |s| else limit
  {
    if |s| > limit then PyPrefix(s, limit) else s
  }

  /** The record `_truncate_fields` leaves: body and subject cut to their limits. */
  function Truncated(p: ProcessingConfig, fields: map<string, string>): (r: map<string, string>)
    requires SubjectKey in fields && BodyKey in fields
    ensures r.Keys == fields.Keys
    ensures r[BodyKey] == Truncate(fields[BodyKey], p.maxEmailLength)
    ensures r[SubjectKey] == Truncate(fields[SubjectKey], p.maxSubjectLength)
    ensures forall k :: k in fields && k != SubjectKey && k != BodyKey ==> r[k] == fields[k]
  {
    fields[BodyKey := Truncate(fields[BodyKey], p.maxEmailLength)]
          [SubjectKey := Truncate(fields[SubjectKey], p.maxSubjectLength)]
  }

  /** The record `validate_email_data` returns. */
  function Validated(p: ProcessingConfig, fields: map<string, string>): (r: map<string, string>)
    ensures r.Keys == fields.Keys + {SubjectKey, BodyKey}
    ensures r[SubjectKey] == Truncate(DefaultedSubject(fields), p.maxSubjectLength)
    ensures r[BodyKey] == Truncate(DefaultedBody(fields), p.maxEmailLength)
    ensures forall k :: k in fields && k != SubjectKey && k != BodyKey ==> r[k] == fields[k]
  {
    Truncated(p, fields[SubjectKey := DefaultedSubject(fields)][BodyKey := DefaultedBody(fields)])
  }

  /** With non-negative limits, both fields are within their limits and are prefixes of
      their defaulted values. */
  lemma ValidatedWithinLimits(p: ProcessingConfig, fields: map<string, string>)
    requires p.maxEmailLength >= 0 && p.maxSubjectLength >= 0
    ensures var r := Validated(p, fields);
      && |r[BodyKey]| <= p.maxEmailLength
      && |r[SubjectKey]| <= p.maxSubjectLength
      && r[BodyKey] == DefaultedBody(fields)[..|r[BodyKey]|]
      && r[SubjectKey] == DefaultedSubject(fields)[..|r[SubjectKey]|]
  {
  }

  /** A present, non-empty field within its limit comes back unchanged; in particular a
      whitespace-only subject is kept, since only empty values are replaced. */
  lemma FieldsWithinLimitsUnchanged(p: ProcessingConfig, fields: map<string, string>)
    requires SubjectKey in fields && fields[SubjectKey] != [] && |fields[SubjectKey]| <= p.maxSubjectLength
    requires BodyKey in fields && fields[BodyKey] != [] && |fields[BodyKey]| <= p.maxEmailLength
    ensures Validated(p, fields) == fields
  {
    var r := Validated(p, fields);
    assert r.Keys == fields.Keys;
    forall k | k in fields
      ensures r[k] == fields[k]
    {
    }
  }

  /** Validating an already validated record changes nothing (for non-negative limits;
      a negative limit cuts from the end, as Python's slices do, on every pass). */
  lemma ValidatedIdempotent(p: ProcessingConfig, fields: map<string, string>)
    requires p.maxEmailLength >= 0 && p.maxSubjectLength >= 0
    ensures Validated(p, Validated(p, fields)) == Validated(p, fields)
  {
    var r := Validated(p, fields);
    var rr := Validated(p, r);
    ValidatedWithinLimits(p, fields);
    if r[SubjectKey] == [] {
      // Only a zero subject limit empties the subject; the second pass restores the
      // default and cuts it to nothing again.
      assert p.maxSubjectLength == 0;
    }
    if r[BodyKey] == [] {
      assert p.maxEmailLength == 0;
    }
    assert rr[SubjectKey] == r[SubjectKey];
    assert rr[BodyKey] == r[BodyKey];
    assert rr.Keys == r.Keys;
  }

  /** `prepare_text_for_classification`: the lower-cased concatenation, stripped. */
  function PrepareTextForClassification(subject: string, content: string, sender: string): (r: string)
    ensures r == Strip(Lower(subject + " " + content + " " + sender))
    ensures forall i :: 0 <= i < |r| ==> !IsUpper(r[i])
    ensures r == [] || (!IsSpace(r[0]) && !IsSpace(r[|r| - 1]))
    ensures exists i :: OccursAt(Lower(subject + " " + content + " " + sender), r, i)
  {
    var combined := subject + " " + content + " " + sender;
    var r := Strip(Lower(combined));
    var i :| OccursAt(Lower(combined), r, i);
    PieceOfLowerHasNoUpper(combined, r, i);
    r
  }

  /** A prepared text is already normal: lower-casing and stripping it again change
      nothing. */
  lemma PreparedTextIsNormal(subject: string, content: string, sender: string)
    ensures var r := PrepareTextForClassification(subject, content, sender);
      Lower(r) == r && Strip(r) == r
  {
    var r := PrepareTextForClassification(subject, content, sender);
    NoUpperLowersToItself(r);
    StrippedIsFixed(r);
  }

  /** The normaliser of one configuration. */
  class InputValidator {
    const config: ClassifierConfig

    constructor (config: ClassifierConfig)
      ensures this.config == config
    {
      this.config := config;
    }

    /** `validate_email_data`: default the subject, then the body, then truncate, all in
        place on `data`. */
    method ValidateEmailData(data: EmailData)
      modifies data
      ensures data.fields == Validated(config.processing, old(data.fields))
    {
      ghost var original := data.fields;
      if SubjectKey !in data.fields || data.fields[SubjectKey] == [] {
        data.fields := data.fields[SubjectKey := DefaultSubject];
      }
      if BodyKey !in data.fields || data.fields[BodyKey] == [] {
        data.fields := data.fields[BodyKey := data.fields[SubjectKey]];
      }
      assert data.fields == original[SubjectKey := DefaultedSubject(original)][BodyKey := DefaultedBody(original)];
      TruncateFields(data);
    }

    /** `_truncate_fields`: cut the body, then the subject, in place. */
    method TruncateFields(data: EmailData)
      requires SubjectKey in data.fields && BodyKey in data.fields
      modifies data
      ensures data.fields == Truncated(config.processing, old(data.fields))
    {
      if |data.fields[BodyKey]| > config.processing.maxEmailLength {
        data.fields := data.fields[BodyKey := PyPrefix(data.fields[BodyKey], config.processing.maxEmailLength)];
      }
      if |data.fields[SubjectKey]| > config.processing.maxSubjectLength {
        data.fields := data.fields[SubjectKey := PyPrefix(data.fields[SubjectKey], config.processing.maxSubjectLength)];
      }
    }
  }
}
