/** The broadcast service (src/services/broadcastService.ts): campaigns and
    templates held in memory. `sendCampaign` is two steps: the call marks the
    campaign 'sending' and schedules a callback that, two seconds later,
    marks the same campaign object 'sent'. Here the call returns the position
    of that campaign (the store only ever appends, so the position names the
    same campaign later) and the callback is the separate step CompleteSend. */
module BroadcastService {
  import opened Common
  import opened BroadcastTypes

  /** The analytics every new campaign starts with. */
  const NoAnalytics := BroadcastAnalytics(0, 0, 0, 0, 0, 0, 0.0, 0.0, 0.0, 0.0, [])

  /** Every counter and rate is zero and the timeline is empty. */
  predicate IsBlank(a: BroadcastAnalytics) {
    && a.totalSent == 0 && a.delivered == 0 && a.read == 0
    && a.replied == 0 && a.failed == 0 && a.optedOut == 0
    && a.deliveryRate == 0.0 && a.readRate == 0.0 && a.responseRate == 0.0 && a.optOutRate == 0.0
    && a.timeline == []
  }

  /** The campaigns after the first step of `sendCampaign`: the first
      campaign with the id is 'sending', whatever its previous status or its
      template's approval; nothing else changes, analytics included. */
  function SendingMarked(campaigns: seq<BroadcastCampaign>, id: string): (r: seq<BroadcastCampaign>)
    ensures |r| == |campaigns|
    ensures forall k :: 0 <= k < |campaigns| && IsFirst(CampaignIds(campaigns), id, k) ==>
      r[k] == campaigns[k].(status := Sending)
    ensures forall k :: 0 <= k < |campaigns| && !IsFirst(CampaignIds(campaigns), id, k) ==> r[k] == campaigns[k]
    ensures id !in CampaignIds(campaigns) ==> r == campaigns
  {
    match FirstIndex(CampaignIds(campaigns), id)
    case None => campaigns
    case Some(k) => campaigns[k := campaigns[k].(status := Sending)]
  }

  /** The campaigns after the deferred step: the captured campaign is 'sent'
      with the completion stamp; nothing else changes. */
  function SendCompleted(campaigns: seq<BroadcastCampaign>, k: nat, sentAt: string): (r: seq<BroadcastCampaign>)
    requires k < |campaigns|
    ensures |r| == |campaigns|
    ensures r[k].status == Sent && r[k].sentAt == Some(sentAt)
    ensures r[k] == campaigns[k].(status := Sent, sentAt := Some(sentAt))
    ensures forall j :: 0 <= j < |campaigns| && j != k ==> r[j] == campaigns[j]
  {
    campaigns[k := campaigns[k].(status := Sent, sentAt := Some(sentAt))]
  }

  /** Both steps of a send on a known id: the campaign ends 'sent' with the
      completion stamp and its analytics exactly as before, whatever its
      status was; every other campaign is untouched. */
  lemma SendLeavesAnalyticsAlone(campaigns: seq<BroadcastCampaign>, id: string, k: nat, sentAt: string)
    requires IsFirst(CampaignIds(campaigns), id, k)
    ensures var after := SendCompleted(SendingMarked(campaigns, id), k, sentAt);
            && |after| == |campaigns|
            && after[k] == campaigns[k].(status := Sent, sentAt := Some(sentAt))
            && after[k].analytics == campaigns[k].analytics
            && forall j :: 0 <= j < |campaigns| && j != k ==> after[j] == campaigns[j]
  {
    var mid := SendingMarked(campaigns, id);
    forall j | 0 <= j < |campaigns| && j != k ensures mid[j] == campaigns[j] {
      assert !IsFirst(CampaignIds(campaigns), id, j);
    }
  }

  class BroadcastStore {
    var campaigns: seq<BroadcastCampaign>
    var templates: seq<BroadcastTemplate>

    constructor (initialCampaigns: seq<BroadcastCampaign>, initialTemplates: seq<BroadcastTemplate>)
      ensures campaigns == initialCampaigns && templates == initialTemplates
    {
      campaigns := initialCampaigns;
      templates := initialTemplates;
    }

    /** `getCampaign`: the first campaign with the id, or null. */
    function GetCampaign(id: string): (r: Option<BroadcastCampaign>)
      reads this
      ensures r.None? <==> id !in CampaignIds(campaigns)
      ensures r.Some? ==> exists k :: IsFirst(CampaignIds(campaigns), id, k) && r.value == campaigns[k]
    {
      match FirstIndex(CampaignIds(campaigns), id)
      case None => None
      case Some(k) => Some(campaigns[k])
    }

    /** `getCampaignAnalytics`: the analytics of the campaign `getCampaign`
        finds, or null. */
    function GetCampaignAnalytics(id: string): (r: Option<BroadcastAnalytics>)
      reads this
      ensures r.None? <==> GetCampaign(id).None?
      ensures r.Some? ==> r.value == GetCampaign(id).value.analytics
    {
      match FirstIndex(CampaignIds(campaigns), id)
      case None => None
      case Some(k) => Some(campaigns[k].analytics)
    }

    /** `createCampaign`: every caller field is kept, status included (no
        forced 'draft'); the analytics start blank. */
    method CreateCampaign(campaign: BroadcastCampaign, newId: string, now: string) returns (r: BroadcastCampaign)
      modifies this
      ensures r == campaign.(id := newId, createdAt := now, analytics := NoAnalytics)
      ensures r.status == campaign.status && IsBlank(r.analytics)
      ensures campaigns == old(campaigns) + [r]
      ensures templates == old(templates)
    {
      r := campaign.(id := newId, createdAt := now, analytics := NoAnalytics);
      campaigns := campaigns + [r];
    }

    /** `createTemplate`: every caller field is kept, `isApproved` included. */
    method CreateTemplate(template: BroadcastTemplate, newId: string, now: string) returns (r: BroadcastTemplate)
      modifies this
      ensures r == template.(id := newId, createdAt := now, updatedAt := now)
      ensures r.isApproved == template.isApproved
      ensures templates == old(templates) + [r]
      ensures campaigns == old(campaigns)
    {
      r := template.(id := newId, createdAt := now, updatedAt := now);
      templates := templates + [r];
    }

    /** `sendCampaign`, first step. `pending` is the campaign whose completion
        the callback will record, or None when the id is unknown (then
        nothing is scheduled and nothing changes). */
    method SendCampaign(id: string) returns (pending: Option<nat>)
      modifies this
      ensures campaigns == SendingMarked(old(campaigns), id)
      ensures pending.None? <==> id !in CampaignIds(old(campaigns))
      ensures pending.Some? ==> IsFirst(CampaignIds(old(campaigns)), id, pending.value)
      ensures templates == old(templates)
    {
      pending := FirstIndex(CampaignIds(campaigns), id);
      if pending.Some? {
        var k := pending.value;
        campaigns := campaigns[k := campaigns[k].(status := Sending)];
      }
    }

    /** `sendCampaign`, the deferred callback on the captured campaign. */
    method CompleteSend(k: nat, sentAt: string)
      requires k < |campaigns|
      modifies this
      ensures campaigns == SendCompleted(old(campaigns), k, sentAt)
      ensures templates == old(templates)
    {
      campaigns := campaigns[k := campaigns[k].(status := Sent)];
      campaigns := campaigns[k := campaigns[k].(sentAt := Some(sentAt))];
    }
  }
}
