/** The notifications that stand in for a pre-2.1 vendor's pull-style
    enumeration, and how a receiver reads them back. */
module LegacyEnumeration {
  import opened HalTypes

  /** One FINGERPRINT_TEMPLATE_ENUMERATING message per id, in the vendor's
      order, each counting the messages still to come. */
  function Announce(ids: seq<FingerId>): (msgs: seq<Msg>)
    requires |ids| < 0x1_0000_0000
    ensures |msgs| == |ids|
    ensures forall i :: 0 <= i < |ids| ==> msgs[i] == TemplateEnumerating(ids[i], |ids| - i - 1)
    decreases |ids|
  {
    if ids == [] then [] else [TemplateEnumerating(ids[0], |ids| - 1)] + Announce(ids[1..])
  }

  /** A receiver of push-style enumeration: it takes each message's finger and
      stops at the message that reports no templates remaining. */
  function Collect(msgs: seq<Msg>): (ids: seq<FingerId>)
    decreases |msgs|
  {
    if msgs == [] then []
    else if msgs[0].remainingTemplates == 0 then [msgs[0].finger]
    else [msgs[0].finger] + Collect(msgs[1..])
  }

  /** The synthesised notifications carry exactly the vendor's list: a
      receiver reading them recovers every id, in order, and stops at the
      last one. */
  lemma {:induction false} CollectAnnounce(ids: seq<FingerId>)
    requires |ids| < 0x1_0000_0000
    ensures Collect(Announce(ids)) == ids
    decreases |ids|
  {
    if ids != [] {
      if |ids| > 1 {
        CollectAnnounce(ids[1..]);
        assert Announce(ids)[1..] == Announce(ids[1..]);
      }
    }
  }

  /** Three ids reported in the order 10, 11, 12 are announced in that order
      with 2, 1 and 0 templates remaining. */
  lemma AnnounceThreeTemplates()
    ensures Announce([FingerId(0, 10), FingerId(0, 11), FingerId(0, 12)])
         == [TemplateEnumerating(FingerId(0, 10), 2),
             TemplateEnumerating(FingerId(0, 11), 1),
             TemplateEnumerating(FingerId(0, 12), 0)]
  {
  }

  /** The calls of the notify callback `cb` with `msgs`, in order. */
  function Deliveries(cb: Callback, msgs: seq<Msg>): (calls: seq<Delivery>)
  {
    seq(|msgs|, i requires 0 <= i < |msgs| => Delivery(cb, msgs[i]))
  }
}
