/** The text that carries external evidence in an outcome message (queue/chain.go). */
module Evidences {
  import opened Text
  import opened Tables

  const PREFIX := "external-evidence:"

  function OutcomeText(outcome: Outcome): string {
    if outcome.evidence.External? then PREFIX + outcome.evidenceID + "|" + outcome.message else outcome.message
  }

  datatype Parsed = Parsed(source: Evidence, id: string, message: string)

  /** The index of the first bar, or the length when there is none. */
  function FirstBar(s: string): (i: nat)
    ensures i <= |s| && '|' !in s[..i] && (i < |s| ==> s[i] == '|')
  {
    if s == "" || s[0] == '|' then 0
    else
      var i := 1 + FirstBar(s[1..]);
      assert s[..i] == [s[0]] + s[1..][..i - 1];
      i
  }

  function ParseEvidence(text: string): Parsed {
    if !HasPrefix(text, PREFIX) then Parsed(Unspecified, "", text)
    else
      var payload := text[|PREFIX|..];
      var i := FirstBar(payload);
      if i == |payload| || Blank(payload[..i]) then Parsed(External, "", text)
      else Parsed(External, payload[..i], payload[i + 1..])
  }

  lemma {:induction false} FirstBarAfter(a: string, b: string)
    requires '|' !in a
    ensures FirstBar(a + "|" + b) == |a|
  {
    var s := a + "|" + b;
    if a == "" {
      assert s[0] == '|';
    } else {
      assert s[0] == a[0] && a[0] in a;
      assert s[1..] == a[1..] + "|" + b;
      FirstBarAfter(a[1..], b);
    }
  }

  lemma TruncateKeepsFront(front: string, rest: string, limit: nat)
    requires |front| <= limit
    ensures Truncate(front + rest, limit) == front + Truncate(rest, limit - |front|)
  {
  }

  lemma ParsedPayload(id: string, message: string)
    requires !Blank(id) && '|' !in id
    ensures ParseEvidence(PREFIX + (id + "|" + message)) == Parsed(External, id, message)
  {
    var payload := id + "|" + message;
    var text := PREFIX + payload;
    assert text[|PREFIX|..] == payload && text[..|PREFIX|] == PREFIX;
    FirstBarAfter(id, message);
    assert payload[..|id|] == id && payload[|id| + 1..] == message;
  }

  /** Evidence without a bar survives the column: the id comes back exactly, the message cut to what the column
      leaves. */
  lemma EvidenceRoundTrips(id: string, message: string, limit: nat)
    requires !Blank(id) && '|' !in id
    requires |PREFIX| + |id| + 1 <= limit
    ensures ParseEvidence(Truncate(PREFIX + id + "|" + message, limit))
         == Parsed(External, id, Truncate(message, limit - |PREFIX| - |id| - 1))
  {
    hide ParseEvidence, Blank, Truncate;
    TruncateKeepsFront(PREFIX + id + "|", message, limit);
    var kept := Truncate(message, limit - |PREFIX| - |id| - 1);
    assert PREFIX + id + "|" + kept == PREFIX + (id + "|" + kept);
    ParsedPayload(id, kept);
  }

  /** An id with a bar never comes back. */
  lemma BarBreaksTheRoundTrip(id: string, message: string, limit: nat)
    requires '|' in id
    requires |PREFIX| + |id| <= limit
    ensures ParseEvidence(Truncate(PREFIX + id + "|" + message, limit)).id != id
  {
    var text := Truncate(PREFIX + id + "|" + message, limit);
    assert |text| >= |PREFIX| + |id| && text[..|PREFIX|] == PREFIX && text[|PREFIX|..][..|id|] == id;
    var payload := text[|PREFIX|..];
    var i := FirstBar(payload);
    var k :| 0 <= k < |id| && id[k] == '|';
    assert payload[k] == payload[..|id|][k] == '|';
    assert forall j | 0 <= j < i :: payload[..i][j] == payload[j];
    assert i <= k;
  }
}
