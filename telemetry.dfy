/**
 * Decoded telemetry messages and the pure parts of their handling: the
 * admission test, the split of an AMQP binding key into its dot-separated
 * segments, and the shaping of the result records.
 */
module Telemetry {

  /** A decoded JSON value: a number, a string, or anything else (bool, null, list, object). */
  datatype Value = Num(n: real) | Str(s: string) | Other

  /** A decoded JSON object. */
  type Message = map<string, Value>

  /** The keys a personnel telemetry message must carry to be queued. */
  const RequiredKeys: set<string> := {"id", "x_imu_vel", "y_imu_vel", "z_imu_vel",
                                      "x_uwb_pos", "y_uwb_pos", "z_uwb_pos",
                                      "data_aggregator_id", "timestamp"}

  /** m carries every required key. */
  predicate Complete(m: Message)
  {
    RequiredKeys <= m.Keys
  }

  /** Every message of q is complete. */
  predicate AllComplete(q: seq<Message>)
  {
    forall i :: 0 <= i < |q| ==> Complete(q[i])
  }

  lemma AllCompleteAppend(q1: seq<Message>, q2: seq<Message>)
    requires AllComplete(q1) && AllComplete(q2)
    ensures AllComplete(q1 + q2)
  {
    assert forall i :: |q1| <= i < |q1 + q2| ==> (q1 + q2)[i] == q2[i - |q1|];
  }

  /** The text a binding key must contain for its messages to be personnel telemetry. */
  const PersonnelTopic: string := "generator.personnel"

  /** The keys a processed measurement gains. */
  const EstimateKeys: set<string> := {"dimension", "x_est_pos", "y_est_pos", "z_est_pos"}

  /** The keys of the position record sent to the personnel-location exchange. */
  const PlmKeys: set<string> := {"id", "x_est_pos", "y_est_pos", "z_est_pos", "timestamp"}

  /** key is present and holds a number. */
  predicate NumAt(m: Message, key: string)
  {
    key in m && m[key].Num?
  }

  /** sub occurs in s starting at index i. */
  predicate OccursAt(s: string, sub: string, i: int)
  {
    0 <= i <= |s| - |sub| && s[i..i + |sub|] == sub
  }

  /** sub occurs in s as a contiguous substring. */
  predicate Contains(s: string, sub: string)
  {
    exists i :: 0 <= i <= |s| - |sub| && OccursAt(s, sub, i)
  }

  /** Splits s at every occurrence of sep; an empty s and adjacent separators give empty parts. */
  function Split(s: string, sep: char): (parts: seq<string>)
    ensures |parts| >= 1
    ensures forall i :: 0 <= i < |parts| ==> sep !in parts[i]
    decreases |s|
  {
    if s == [] then [""]
    else
      var rest := Split(s[1..], sep);
      if s[0] == sep then [""] + rest
      else [[s[0]] + rest[0]] + rest[1..]
  }

  /** Joins parts with sep between each two. */
  function Join(parts: seq<string>, sep: char): string
    requires |parts| >= 1
    decreases |parts|
  {
    if |parts| == 1 then parts[0] else parts[0] + [sep] + Join(parts[1..], sep)
  }

  lemma JoinPrepend(c: char, parts: seq<string>, sep: char)
    requires |parts| >= 1
    ensures Join([[c] + parts[0]] + parts[1..], sep) == [c] + Join(parts, sep)
  {
    var q := [[c] + parts[0]] + parts[1..];
    assert q[1..] == parts[1..];
  }

  /** Splitting loses nothing: joining the parts again gives back the original text. */
  lemma {:induction false} JoinSplit(s: string, sep: char)
    ensures Join(Split(s, sep), sep) == s
    decreases |s|
  {
    if s != [] {
      var rest := Split(s[1..], sep);
      JoinSplit(s[1..], sep);
      if s[0] == sep {
        assert ([""] + rest)[1..] == rest;
        assert Join([""] + rest, sep) == [sep] + Join(rest, sep);
      } else {
        JoinPrepend(s[0], rest, sep);
      }
      assert s == [s[0]] + s[1..];
    }
  }

  /** The last part of a join follows the last separator. */
  lemma {:induction false} JoinLast(parts: seq<string>, sep: char)
    requires |parts| >= 2
    ensures Join(parts, sep) == Join(parts[..|parts| - 1], sep) + [sep] + parts[|parts| - 1]
    decreases |parts|
  {
    if |parts| > 2 {
      JoinLast(parts[1..], sep);
      assert parts[1..][..|parts| - 2] == parts[..|parts| - 1][1..];
    }
  }

  /**
   * The last dot-separated segment of a binding key (the walker id): the
   * longest suffix without a dot, so either the whole key or the text after
   * its last dot.
   */
  function LastSegment(binding: string): (w: string)
    ensures '.' !in w
    ensures |w| <= |binding| && w == binding[|binding| - |w|..]
    ensures |w| < |binding| ==> binding[|binding| - |w| - 1] == '.'
  {
    var parts := Split(binding, '.');
    JoinSplit(binding, '.');
    if |parts| >= 2 then JoinLast(parts, '.'); parts[|parts| - 1]
    else parts[|parts| - 1]
  }

  /**
   * A message delivered under bindingName is personnel telemetry for
   * selfId: the binding names the personnel topic, every required key is
   * present, and the binding's last segment is both the message's id (as a
   * string) and selfId. An admissible message is complete and carries
   * the tracker's own id.
   */
  predicate Admissible(bindingName: string, body: Message, selfId: string): (ok: bool)
    ensures ok ==> Complete(body) && body["id"] == Str(selfId)
  {
    Contains(bindingName, PersonnelTopic)
    && Complete(body)
    && body["id"] == Str(LastSegment(bindingName))
    && LastSegment(bindingName) == selfId
  }

  /** The copies of body queued by a pass over the subscribers (one per subscriber on exchangeName). */
  function Admitted(subscriberExchanges: seq<string>, exchangeName: string, bindingName: string,
                    body: Message, selfId: string): (q: seq<Message>)
    ensures |q| <= |subscriberExchanges|
    ensures forall i :: 0 <= i < |q| ==> q[i] == body
    decreases |subscriberExchanges|
  {
    if subscriberExchanges == [] then []
    else
      var n := |subscriberExchanges| - 1;
      Admitted(subscriberExchanges[..n], exchangeName, bindingName, body, selfId)
      + if subscriberExchanges[n] == exchangeName && Admissible(bindingName, body, selfId) then [body] else []
  }

  /** One more subscriber extends the pass by at most one copy. */
  lemma AdmittedStep(subscriberExchanges: seq<string>, i: nat, exchangeName: string, bindingName: string,
                     body: Message, selfId: string)
    requires i < |subscriberExchanges|
    ensures Admitted(subscriberExchanges[..i + 1], exchangeName, bindingName, body, selfId)
      == Admitted(subscriberExchanges[..i], exchangeName, bindingName, body, selfId)
         + if subscriberExchanges[i] == exchangeName && Admissible(bindingName, body, selfId) then [body] else []
  {
    assert subscriberExchanges[..i + 1][..i] == subscriberExchanges[..i];
  }

  /**
   * An admissible message is queued once per subscriber on its exchange, and
   * an inadmissible one not at all.
   */
  lemma {:induction false} AdmittedCopies(subscriberExchanges: seq<string>, exchangeName: string,
                                          bindingName: string, body: Message, selfId: string)
    ensures var q := Admitted(subscriberExchanges, exchangeName, bindingName, body, selfId);
      |q| == (if Admissible(bindingName, body, selfId) then multiset(subscriberExchanges)[exchangeName] else 0)
      && forall i :: 0 <= i < |q| ==> q[i] == body
    decreases |subscriberExchanges|
  {
    if subscriberExchanges != [] {
      var n := |subscriberExchanges| - 1;
      AdmittedCopies(subscriberExchanges[..n], exchangeName, bindingName, body, selfId);
      assert subscriberExchanges == subscriberExchanges[..n] + [subscriberExchanges[n]];
      assert multiset(subscriberExchanges) == multiset(subscriberExchanges[..n]) + multiset{subscriberExchanges[n]};
    }
  }

  /** Only complete messages are admitted. */
  lemma AdmittedAreComplete(subscriberExchanges: seq<string>, exchangeName: string, bindingName: string,
                            body: Message, selfId: string)
    ensures AllComplete(Admitted(subscriberExchanges, exchangeName, bindingName, body, selfId))
  {
    AdmittedCopies(subscriberExchanges, exchangeName, bindingName, body, selfId);
  }

  /** The processed measurement: every input field, plus the dimension and the three estimates. */
  function Annotate(m: Message, dimension: int, x: real, y: real, z: real): (r: Message)
    ensures r.Keys == m.Keys + EstimateKeys
    ensures forall k :: k in m && k !in EstimateKeys ==> r[k] == m[k]
    ensures r["dimension"] == Num(dimension as real)
    ensures r["x_est_pos"] == Num(x) && r["y_est_pos"] == Num(y) && r["z_est_pos"] == Num(z)
  {
    m["dimension" := Num(dimension as real)]["x_est_pos" := Num(x)]["y_est_pos" := Num(y)]["z_est_pos" := Num(z)]
  }

  /** The position record: exactly the id, the three estimates and the timestamp, copied from the result. */
  function PlmRecord(result: Message): (plm: Message)
    requires PlmKeys <= result.Keys
    ensures plm.Keys == PlmKeys
    ensures forall k :: k in plm ==> plm[k] == result[k]
  {
    map k | k in PlmKeys :: result[k]
  }

  /**
   * The position record of a processed measurement carries the measurement's
   * id and timestamp and the three estimates.
   */
  lemma PlmOfProcessed(m: Message, dimension: int, x: real, y: real, z: real)
    requires Complete(m)
    ensures PlmKeys <= Annotate(m, dimension, x, y, z).Keys
    ensures var plm := PlmRecord(Annotate(m, dimension, x, y, z));
      plm["id"] == m["id"] && plm["timestamp"] == m["timestamp"]
      && plm["x_est_pos"] == Num(x) && plm["y_est_pos"] == Num(y) && plm["z_est_pos"] == Num(z)
  {
    var r := Annotate(m, dimension, x, y, z);
    assert "id" !in EstimateKeys && "timestamp" !in EstimateKeys;
    assert "id" in m && "timestamp" in m;
  }
}
