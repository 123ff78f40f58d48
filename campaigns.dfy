/** The campaigns page (src/pages/campaigns/Campaigns.tsx): the tab filter
    and the progress of an active campaign. Progress is computed exactly:
    `Math.round` of the rational `completed / total * 100`. */
module Campaigns {
  import opened Wrappers
  import Seqs

  datatype Campaign = Campaign(
    id: string,
    name: string,
    /** 'active', 'past' or 'draft'. */
    status: string,
    postsCount: int,
    scheduledCount: int,
    completedCount: int,
    team: seq<string>,
    description: string)

  datatype Tab = ActiveTab | PastTab | DraftsTab

  /** The status a tab shows. */
  function StatusOf(tab: Tab): string {
    match tab
    case ActiveTab => "active"
    case PastTab => "past"
    case DraftsTab => "draft"
  }

  /** `filteredCampaigns`: the campaigns whose status is the tab's, in
      order. */
  function FilteredCampaigns(campaigns: seq<Campaign>, tab: Tab): (r: seq<Campaign>)
    ensures forall c :: c in r <==> c in campaigns && c.status == StatusOf(tab)
    ensures Seqs.IsSubsequence(r, campaigns)
  {
    Seqs.FilterIsSubsequence((c: Campaign) => c.status == StatusOf(tab), campaigns);
    Seqs.Filter((c: Campaign) => c.status == StatusOf(tab), campaigns)
  }

  /** A campaign shows on at most one tab, and a campaign with one of the
      three statuses shows on exactly one. */
  lemma OneTabEach(campaigns: seq<Campaign>, c: Campaign)
    requires c in campaigns
    ensures forall t1, t2 :: c in FilteredCampaigns(campaigns, t1) && c in FilteredCampaigns(campaigns, t2) ==> t1 == t2
    ensures c.status == "active" ==> c in FilteredCampaigns(campaigns, ActiveTab)
    ensures c.status == "past" ==> c in FilteredCampaigns(campaigns, PastTab)
    ensures c.status == "draft" ==> c in FilteredCampaigns(campaigns, DraftsTab)
  {
    forall t1, t2 | StatusOf(t1) == StatusOf(t2) ensures t1 == t2 {
      assert |StatusOf(t1)| == |StatusOf(t2)|;
    }
  }

  /** `calculateProgress`: `Math.round(completed / total * 100)`, or 0 for
      an empty campaign. */
  function CalculateProgress(completed: int, total: int): (p: int)
    ensures total <= 0 ==> p == 0
    ensures total > 0 ==> 2 * total * p <= 200 * completed + total < 2 * total * p + 2 * total
  {
    if total > 0 then (200 * completed + total) / (2 * total) else 0
  }

  /** Progress is a percentage: between 0 and 100 whenever the completed
      count lies between 0 and the total, and exactly 100 when everything
      is done. */
  lemma ProgressIsPercentage(completed: int, total: int)
    requires 0 <= completed <= total
    ensures 0 <= CalculateProgress(completed, total) <= 100
    ensures completed == total > 0 ==> CalculateProgress(completed, total) == 100
  {
    if total > 0 {
      var p := CalculateProgress(completed, total);
      var t2 := 2 * total;
      assert t2 * p <= 200 * completed + total < t2 * p + t2;
      assert 200 * completed <= 200 * total;
      if p < 0 {
        MulLe(t2, p + 1, 0);
        assert false;
      }
      if p > 100 {
        MulLe(t2, 101, p);
        assert false;
      }
      if completed == total && p < 100 {
        MulLe(t2, p + 1, 100);
        assert false;
      }
    }
  }

  lemma MulLe(a: int, x: int, y: int)
    requires a > 0 && x <= y
    ensures a * x <= a * y
  {
    assert a * y - a * x == a * (y - x);
  }

  /** The progress bar shows only for active campaigns, with the campaign's
      progress. */
  function ProgressBar(c: Campaign): (r: Option<int>)
    ensures r.Some? <==> c.status == "active"
    ensures r.Some? ==> r.value == CalculateProgress(c.completedCount, c.postsCount)
  {
    if c.status == "active" then
      Some(CalculateProgress(c.completedCount, c.postsCount))
    else None
  }
}
