/**
 * Sponsor-channel membership: the status test of check_subscription
 * (main.py:54-65) and the per-channel split in build_status_message
 * (main.py:85-94). The membership oracle (the chat platform's
 * get_chat_member) is not modelled; its answers are an input, one per sponsor.
 */
module Subscription {
  type Channel = string

  /** The sponsor channels a user must join, in the order they are checked. */
  const Sponsors: seq<Channel> := ["@openbusines", "@SAGkatalog", "@pepperru"]

  /** The chat-member statuses the platform reports. */
  datatype MemberStatus = Creator | Administrator | Member | Restricted | Left | Kicked

  /** One oracle answer: a status, or a failed query (the call raised). */
  datatype OracleAnswer = Answered(status: MemberStatus) | QueryFailed

  /** A channel counts as joined only for a member, an administrator or the creator. */
  predicate IsSubscribed(a: OracleAnswer) {
    a.Answered? && a.status in {Member, Administrator, Creator}
  }

  /** A failed query never counts as subscribed (fail closed). */
  lemma FailureIsUnsubscribed()
    ensures !IsSubscribed(QueryFailed)
    ensures !IsSubscribed(Answered(Restricted)) && !IsSubscribed(Answered(Left)) && !IsSubscribed(Answered(Kicked))
    ensures IsSubscribed(Answered(Member)) && IsSubscribed(Answered(Administrator)) && IsSubscribed(Answered(Creator))
  {
  }

  /** True when every answer counts as subscribed. */
  predicate AllPass(answers: seq<OracleAnswer>) {
    forall i | 0 <= i < |answers| :: IsSubscribed(answers[i])
  }

  /** The first n channels whose answer counts as subscribed, in order. */
  function PassedPrefix<T>(channels: seq<T>, answers: seq<OracleAnswer>, n: nat): seq<T>
    requires |channels| == |answers| && n <= |channels|
  {
    if n == 0 then []
    else if IsSubscribed(answers[n - 1]) then PassedPrefix(channels, answers, n - 1) + [channels[n - 1]]
    else PassedPrefix(channels, answers, n - 1)
  }

  /** The first n channels whose answer does not count as subscribed, in order. */
  function FailedPrefix<T>(channels: seq<T>, answers: seq<OracleAnswer>, n: nat): seq<T>
    requires |channels| == |answers| && n <= |channels|
  {
    if n == 0 then []
    else if IsSubscribed(answers[n - 1]) then FailedPrefix(channels, answers, n - 1)
    else FailedPrefix(channels, answers, n - 1) + [channels[n - 1]]
  }

  /** The channels whose answer counts as subscribed, in the given order. */
  function Passed<T>(channels: seq<T>, answers: seq<OracleAnswer>): seq<T>
    requires |channels| == |answers|
  {
    PassedPrefix(channels, answers, |channels|)
  }

  /** The channels whose answer does not count as subscribed, in the given order. */
  function Failed<T>(channels: seq<T>, answers: seq<OracleAnswer>): seq<T>
    requires |channels| == |answers|
  {
    FailedPrefix(channels, answers, |channels|)
  }

  /** The first n channels as a multiset. */
  ghost function PrefixBag<T>(channels: seq<T>, n: nat): multiset<T>
    requires n <= |channels|
  {
    if n == 0 then multiset{} else PrefixBag(channels, n - 1) + multiset{channels[n - 1]}
  }

  lemma {:induction false} PrefixBagIsMultiset<T>(channels: seq<T>, n: nat)
    requires n <= |channels|
    ensures PrefixBag(channels, n) == multiset(channels[..n])
  {
    if n > 0 {
      PrefixBagIsMultiset(channels, n - 1);
      assert channels[..n] == channels[..n - 1] + [channels[n - 1]];
    }
  }

  /** Among the first n channels, every channel lands in exactly one of the two lists. */
  lemma {:induction false} PrefixIsPartition<T>(channels: seq<T>, answers: seq<OracleAnswer>, n: nat)
    requires |channels| == |answers| && n <= |channels|
    ensures multiset(PassedPrefix(channels, answers, n)) + multiset(FailedPrefix(channels, answers, n))
            == PrefixBag(channels, n)
  {
    if n > 0 {
      var m, x := n - 1, channels[n - 1];
      PrefixIsPartition(channels, answers, m);
      var p, f := PassedPrefix(channels, answers, m), FailedPrefix(channels, answers, m);
      if IsSubscribed(answers[m]) {
        assert multiset(p + [x]) == multiset(p) + multiset{x};
      } else {
        assert multiset(f + [x]) == multiset(f) + multiset{x};
      }
    }
  }

  /** Every channel lands in exactly one of the two lists. */
  lemma SplitIsPartition<T>(channels: seq<T>, answers: seq<OracleAnswer>)
    requires |channels| == |answers|
    ensures multiset(Passed(channels, answers)) + multiset(Failed(channels, answers)) == multiset(channels)
    ensures |Passed(channels, answers)| + |Failed(channels, answers)| == |channels|
  {
    PrefixIsPartition(channels, answers, |channels|);
    PrefixBagIsMultiset(channels, |channels|);
    assert channels[..|channels|] == channels;
    assert |multiset(Passed(channels, answers)) + multiset(Failed(channels, answers))| == |multiset(channels)|;
  }

  lemma {:induction false} PrefixPlacesChannel<T>(channels: seq<T>, answers: seq<OracleAnswer>, n: nat, i: nat)
    requires |channels| == |answers| && i < n <= |channels|
    ensures IsSubscribed(answers[i]) ==> channels[i] in PassedPrefix(channels, answers, n)
    ensures !IsSubscribed(answers[i]) ==> channels[i] in FailedPrefix(channels, answers, n)
  {
    if i < n - 1 {
      PrefixPlacesChannel(channels, answers, n - 1, i);
    }
  }

  /** Channel i is in the subscribed list if its answer counts, otherwise in the unsubscribed one. */
  lemma SplitPlacesChannel<T>(channels: seq<T>, answers: seq<OracleAnswer>, i: nat)
    requires |channels| == |answers| && i < |channels|
    ensures IsSubscribed(answers[i]) ==> channels[i] in Passed(channels, answers)
    ensures !IsSubscribed(answers[i]) ==> channels[i] in Failed(channels, answers)
  {
    PrefixPlacesChannel(channels, answers, |channels|, i);
  }

  /** Every channel of a prefix list comes from a position whose answer puts it there. */
  lemma {:induction false} PrefixMembersFromAnswers<T>(channels: seq<T>, answers: seq<OracleAnswer>, n: nat, x: T)
    requires |channels| == |answers| && n <= |channels|
    ensures x in PassedPrefix(channels, answers, n) ==> exists j :: 0 <= j < n && channels[j] == x && IsSubscribed(answers[j])
    ensures x in FailedPrefix(channels, answers, n) ==> exists j :: 0 <= j < n && channels[j] == x && !IsSubscribed(answers[j])
  {
    if n > 0 {
      PrefixMembersFromAnswers(channels, answers, n - 1, x);
    }
  }

  /** With distinct channels, channel i is in the subscribed list exactly when its answer counts. */
  lemma SplitPlacesDistinct<T>(channels: seq<T>, answers: seq<OracleAnswer>, i: nat)
    requires |channels| == |answers| && i < |channels|
    requires forall j, k | 0 <= j < k < |channels| :: channels[j] != channels[k]
    ensures channels[i] in Passed(channels, answers) <==> IsSubscribed(answers[i])
    ensures channels[i] in Failed(channels, answers) <==> !IsSubscribed(answers[i])
  {
    SplitPlacesChannel(channels, answers, i);
    PrefixMembersFromAnswers(channels, answers, |channels|, channels[i]);
  }

  /** The three sponsor channels are distinct, so each lands in the list its own answer picks. */
  lemma SponsorPlacement(answers: seq<OracleAnswer>, i: nat)
    requires |answers| == |Sponsors| && i < |Sponsors|
    ensures Sponsors[i] in Passed(Sponsors, answers) <==> IsSubscribed(answers[i])
    ensures Sponsors[i] in Failed(Sponsors, answers) <==> !IsSubscribed(answers[i])
  {
    assert Sponsors[0] != Sponsors[1] && Sponsors[0] != Sponsors[2] && Sponsors[1] != Sponsors[2];
    SplitPlacesDistinct(Sponsors, answers, i);
  }

  lemma {:induction false} NoFailuresInPrefix<T>(channels: seq<T>, answers: seq<OracleAnswer>, n: nat)
    requires |channels| == |answers| && n <= |channels|
    ensures FailedPrefix(channels, answers, n) == [] <==> forall i | 0 <= i < n :: IsSubscribed(answers[i])
  {
    if n > 0 {
      NoFailuresInPrefix(channels, answers, n - 1);
    }
  }

  /** The unsubscribed list is empty exactly when every answer counts. */
  lemma NoFailuresIffAllPass<T>(channels: seq<T>, answers: seq<OracleAnswer>)
    requires |channels| == |answers|
    ensures Failed(channels, answers) == [] <==> AllPass(answers)
  {
    NoFailuresInPrefix(channels, answers, |channels|);
  }

  /**
   * The loop of build_status_message: query each channel in order, append it
   * to the subscribed or the unsubscribed list, and report whether the
   * unsubscribed list stayed empty.
   */
  method SplitChannels<T>(channels: seq<T>, answers: seq<OracleAnswer>)
    returns (subscribed: seq<T>, unsubscribed: seq<T>, allSubscribed: bool)
    requires |channels| == |answers|
    ensures subscribed == Passed(channels, answers)
    ensures unsubscribed == Failed(channels, answers)
    ensures allSubscribed <==> AllPass(answers)
  {
    subscribed, unsubscribed := [], [];
    for i := 0 to |channels|
      invariant subscribed == PassedPrefix(channels, answers, i)
      invariant unsubscribed == FailedPrefix(channels, answers, i)
    {
      if IsSubscribed(answers[i]) {
        subscribed := subscribed + [channels[i]];
      } else {
        unsubscribed := unsubscribed + [channels[i]];
      }
    }
    allSubscribed := |unsubscribed| == 0;
    NoFailuresIffAllPass(channels, answers);
  }
}
