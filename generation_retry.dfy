/**
 * `_retry_generate_text`, which the review and generate stages each define
 * with the same body: ask the generation service up to `retries + 1` times,
 * keep the first non-empty reply, pause 1, 2, 4, 4, ... seconds between
 * attempts, and otherwise give back the last exception's text (or "" when
 * the last attempt merely returned an empty reply).
 */
module GenerationRetry {

  /** What one `generate_text` call did: returned a text, possibly empty, or raised. */
  datatype GenReply = Text(text: string) | Raised(message: string)

  /** A reply the loop keeps: a truthy string. */
  predicate Answered(g: GenReply)
  {
    g.Text? && g.text != ""
  }

  /** What `last` holds after a failed attempt. */
  function LastText(g: GenReply): string
  {
    if g.Text? then "" else g.message
  }

  /**
   * The outcome of attempts `i`, ..., `retries`, where `reply(k)` is what the
   * k-th call did.
   */
  function RetriedText(reply: nat -> GenReply, i: nat, retries: nat): string
    requires i <= retries
    decreases retries - i
  {
    if Answered(reply(i)) then reply(i).text
    else if i == retries then LastText(reply(i))
    else RetriedText(reply, i + 1, retries)
  }

  function Min(a: real, b: real): real
  {
    if a <= b then a else b
  }

  /** The pause after the j-th failed attempt: the delay starts at 1 and doubles, capped at 4. */
  function RetryDelay(j: nat): real
  {
    if j == 0 then 1.0 else Min(RetryDelay(j - 1) * 2.0, 4.0)
  }

  /** The pauses are 1, 2, and then 4 seconds for ever. */
  lemma {:induction false} RetryDelayValues(j: nat)
    ensures RetryDelay(j) == if j == 0 then 1.0 else if j == 1 then 2.0 else 4.0
  {
    if j > 1 {
      RetryDelayValues(j - 1);
    }
  }

  /**
   * The loop keeps the first non-empty reply; when every attempt fails, the
   * result is what the last attempt left behind.
   */
  lemma {:induction false} RetriedTextIsFirstAnswer(reply: nat -> GenReply, i: nat, retries: nat)
    requires i <= retries
    ensures (exists k :: i <= k <= retries && Answered(reply(k))) ==>
              exists k :: i <= k <= retries && Answered(reply(k)) && RetriedText(reply, i, retries) == reply(k).text
                           && forall j :: i <= j < k ==> !Answered(reply(j))
    ensures (forall k :: i <= k <= retries ==> !Answered(reply(k))) ==>
              RetriedText(reply, i, retries) == LastText(reply(retries))
    decreases retries - i
  {
    if !Answered(reply(i)) && i < retries {
      RetriedTextIsFirstAnswer(reply, i + 1, retries);
    }
  }

  /**
   * `_retry_generate_text(service, prompt, system, retries)`: `reply(k)` is
   * what the k-th call returned or raised; `sleeps` lists the pauses in order.
   */
  method RetryGenerateText(reply: nat -> GenReply, retries: nat) returns (r: string, calls: nat, sleeps: seq<real>)
    ensures r == RetriedText(reply, 0, retries)
    ensures 1 <= calls <= retries + 1
    ensures forall j :: 0 <= j < calls - 1 ==> !Answered(reply(j))
    ensures Answered(reply(calls - 1)) ==> r == reply(calls - 1).text
    ensures !Answered(reply(calls - 1)) ==> calls == retries + 1 && r == LastText(reply(retries))
    ensures |sleeps| == calls - 1
    ensures forall j :: 0 <= j < |sleeps| ==> sleeps[j] == RetryDelay(j)
  {
    var i: nat := 0;
    var delay := 1.0;
    var last := "";
    sleeps := [];
    calls := 0;
    while i <= retries
      invariant i <= retries + 1 && calls == i
      invariant forall j :: 0 <= j < i ==> !Answered(reply(j))
      invariant i <= retries ==> RetriedText(reply, 0, retries) == RetriedText(reply, i, retries)
      invariant i == retries + 1 ==> RetriedText(reply, 0, retries) == last == LastText(reply(retries))
      invariant |sleeps| == if i == retries + 1 then retries else i
      invariant delay == RetryDelay(|sleeps|)
      invariant forall j :: 0 <= j < |sleeps| ==> sleeps[j] == RetryDelay(j)
      decreases retries + 1 - i
    {
      calls := calls + 1;
      var g := reply(i);
      if Answered(g) {
        r := g.text;
        return;
      }
      last := LastText(g);
      if i < retries {
        sleeps := sleeps + [delay];
        delay := Min(delay * 2.0, 4.0);
      }
      i := i + 1;
    }
    r := last;
  }
}
