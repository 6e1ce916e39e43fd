/** The approval policy: per tool call, whether a person signs off first. */
module ApprovalPolicy {
  import opened Common

  /** Autonomy levels, least to most. */
  datatype Autonomy = Observe | Propose | Assisted | Managed | Autopilot

  function Level(a: Autonomy): nat {
    match a
    case Observe => 0
    case Propose => 1
    case Assisted => 2
    case Managed => 3
    case Autopilot => 4
  }

  predicate Allows(site: Autonomy, required: Autonomy) {
    Level(site) >= Level(required)
  }

  datatype Risk = Internal | NoRisk | Low | Medium | High | Critical | OtherRisk

  /** The least autonomy at which a risk may run unattended; None means never. */
  function RiskFloor(risk: Risk): Option<Autonomy> {
    match risk
    case Internal => Some(Observe)
    case NoRisk => Some(Assisted)
    case Low => Some(Assisted)
    case Medium => Some(Managed)
    case High => Some(Autopilot)
    case Critical => None
    case OtherRisk => Some(Autopilot)
  }

  datatype Tool = Tool(name: string, tags: seq<string>, risk: Risk, approvalType: string, autoFrom: Option<Autonomy>)

  /** The arguments the policy looks at; an empty string stands for an absent one. */
  datatype Args = Args(url: string, targetUrl: string, publishedUrl: string, contentType: string, kind: string, rating: int)

  datatype SitePolicy = SitePolicy(
    autonomy: Autonomy,
    autoPublishTypes: set<string>,
    neverTouchPaths: seq<string>,
    requireApprovalTypes: set<string>,
    autoApproveAfterHours: Option<int>,
    outreachSending: string,
    reviewReplyMinRating: int)

  datatype Rule =
    | NeverAllowed | ProtectedPath | AlwaysHuman | ClientOverride
    | PreApprovedContentType | ContentGate
    | PositiveReviewAutoreply | OutreachAutonomous | ThirdPartyGate
    | InternalWrite | CriticalRisk | AutonomyPermits | AutonomyInsufficient

  datatype Decision = Decision(
    requiresApproval: bool,
    refuse: bool,
    rule: Rule,
    autoApproveAfter: Option<int>)

  const NEVER_ALLOWED: set<string> := {
    "buy_backlinks", "join_link_scheme", "post_to_community_platform", "generate_fake_reviews",
    "gate_negative_reviews", "cloak_content", "create_doorway_pages", "publish_scraped_content",
    "impersonate_person", "hidden_text_or_links", "auto_send_unsolicited_bulk_email"}

  const ALWAYS_HUMAN: set<string> := {
    "robots_txt_write", "disavow_submit", "bulk_redirect_apply", "domain_migration_execute",
    "delete_pages", "noindex_bulk_apply", "hreflang_topology_change", "cms_credential_change",
    "billing_increase", "social_publish", "ads_spend"}

  predicate Contains(text: string, part: string) {
    exists i :: 0 <= i <= |text| && part <= text[i..]
  }

  predicate PathIsProtected(paths: seq<string>, url: string) {
    url != "" && exists path :: path in paths && path != "" && Contains(url, path)
  }

  function TargetUrl(args: Args): string {
    if args.url != "" then args.url else if args.targetUrl != "" then args.targetUrl else args.publishedUrl
  }

  predicate TaggedNever(tool: Tool) {
    exists t :: t in tool.tags && t in NEVER_ALLOWED
  }

  predicate TaggedHuman(tool: Tool) {
    tool.name in ALWAYS_HUMAN || exists t :: t in tool.tags && t in ALWAYS_HUMAN
  }

  function ApprovalType(tool: Tool): string {
    if tool.approvalType != "" then tool.approvalType else "other"
  }

  predicate PublishesContent(tool: Tool) {
    ApprovalType(tool) in {"content_publish", "content_update"}
  }

  predicate ReachesThirdParty(tool: Tool) {
    ApprovalType(tool) in {"outreach_send", "social_post", "review_reply", "gbp_post"}
  }

  function WaitingPeriod(p: SitePolicy): Option<int> {
    if p.autoApproveAfterHours.Some? && p.autoApproveAfterHours.value != 0 then p.autoApproveAfterHours else None
  }

  function Unattended(rule: Rule): Decision {
    Decision(false, false, rule, None)
  }

  function NeedsApproval(rule: Rule): Decision {
    Decision(true, false, rule, None)
  }

  function EvaluateContent(p: SitePolicy, args: Args): Decision {
    var content := if args.contentType != "" then args.contentType else args.kind;
    if content != "" && content in p.autoPublishTypes && Allows(p.autonomy, Managed)
    then Unattended(PreApprovedContentType)
    else NeedsApproval(ContentGate).(autoApproveAfter := WaitingPeriod(p))
  }

  function EvaluateThirdParty(p: SitePolicy, kind: string, args: Args): Decision {
    if kind == "review_reply" && args.rating >= p.reviewReplyMinRating && Allows(p.autonomy, Managed)
    then Unattended(PositiveReviewAutoreply)
    else if kind == "outreach_send" && p.outreachSending == "autonomous" && Allows(p.autonomy, Autopilot)
    then Unattended(OutreachAutonomous)
    else NeedsApproval(ThirdPartyGate)
  }

  function EvaluateTechnical(p: SitePolicy, tool: Tool): Decision {
    if tool.risk == Internal then Unattended(InternalWrite)
    else
      var required := if tool.autoFrom.Some? then tool.autoFrom else RiskFloor(tool.risk);
      if required.None? then NeedsApproval(CriticalRisk)
      else if Allows(p.autonomy, required.value) then Unattended(AutonomyPermits)
      else NeedsApproval(AutonomyInsufficient).(
        autoApproveAfter := if tool.risk in {NoRisk, Low} then WaitingPeriod(p) else None)
  }

  /** The policy's chain of rules, first match wins. */
  function Evaluate(p: SitePolicy, tool: Tool, args: Args): Decision {
    var kind := ApprovalType(tool);
    if TaggedNever(tool) then Decision(false, true, NeverAllowed, None)
    else if PathIsProtected(p.neverTouchPaths, TargetUrl(args)) then NeedsApproval(ProtectedPath)
    else if TaggedHuman(tool) then NeedsApproval(AlwaysHuman)
    else if kind in p.requireApprovalTypes then NeedsApproval(ClientOverride)
    else if PublishesContent(tool) then EvaluateContent(p, args)
    else if ReachesThirdParty(tool) then EvaluateThirdParty(p, kind, args)
    else EvaluateTechnical(p, tool)
  }

  /** Rules under which only an explicit human decision may release the action. */
  predicate HumanOnly(rule: Rule) {
    rule in {AlwaysHuman, ProtectedPath, ClientOverride, ThirdPartyGate, CriticalRisk}
  }

  /** Runs without asking. */
  predicate RunsAlone(d: Decision) {
    !d.requiresApproval && !d.refuse
  }

  /** Raising a site's autonomy never adds a question and never changes a refusal. */
  lemma MoreAutonomyAsksLess(p: SitePolicy, higher: Autonomy, tool: Tool, args: Args)
    requires Allows(higher, p.autonomy)
    ensures RunsAlone(Evaluate(p, tool, args)) ==> RunsAlone(Evaluate(p.(autonomy := higher), tool, args))
    ensures Evaluate(p, tool, args).refuse <==> Evaluate(p.(autonomy := higher), tool, args).refuse
    ensures HumanOnly(Evaluate(p.(autonomy := higher), tool, args).rule) ==>
              Evaluate(p, tool, args) == Evaluate(p.(autonomy := higher), tool, args)
  {
    hide TaggedNever, TaggedHuman, PathIsProtected, TargetUrl;
  }

  /** Actions a person always sees first: refused ones aside, whatever the autonomy. */
  predicate Reserved(p: SitePolicy, tool: Tool, args: Args) {
    || TaggedNever(tool) || TaggedHuman(tool) || PathIsProtected(p.neverTouchPaths, TargetUrl(args))
    || ApprovalType(tool) in p.requireApprovalTypes
  }

  /** `part` is a stretch of `text`. */
  ghost predicate Occurs(part: string, text: string) {
    exists i, j :: 0 <= i <= j <= |text| && text[i..j] == part
  }

  /** The reserved actions, from the tool's name and tags, the address it is aimed at (the
      first one given) and the client's lists. */
  lemma ReservedExactly(p: SitePolicy, tool: Tool, args: Args)
    ensures Reserved(p, tool, args) <==>
            || tool.name in ALWAYS_HUMAN
            || (exists t :: t in tool.tags && (t in NEVER_ALLOWED || t in ALWAYS_HUMAN))
            || (exists path :: path in p.neverTouchPaths && path != "" &&
                  (|| Occurs(path, args.url)
                   || (args.url == "" && Occurs(path, args.targetUrl))
                   || (args.url == args.targetUrl == "" && Occurs(path, args.publishedUrl))))
            || (if tool.approvalType == "" then "other" else tool.approvalType) in p.requireApprovalTypes
  {
    forall path | path != ""
      ensures Contains(args.url, path) <==> Occurs(path, args.url)
      ensures Contains(args.targetUrl, path) <==> Occurs(path, args.targetUrl)
      ensures Contains(args.publishedUrl, path) <==> Occurs(path, args.publishedUrl)
      ensures Occurs(path, "") <==> false
    {
      ContainsMeansOccurs(args.url, path);
      ContainsMeansOccurs(args.targetUrl, path);
      ContainsMeansOccurs(args.publishedUrl, path);
      ContainsMeansOccurs("", path);
    }
    hide Contains, Occurs;
  }

  lemma ContainsMeansOccurs(text: string, part: string)
    ensures Contains(text, part) <==> Occurs(part, text)
    ensures text == "" && part != "" ==> !Occurs(part, text)
  {
    if Contains(text, part) {
      var i :| 0 <= i <= |text| && part <= text[i..];
      assert text[i..i + |part|] == part;
    }
    if Occurs(part, text) {
      var i, j :| 0 <= i <= j <= |text| && text[i..j] == part;
      assert part <= text[i..];
    }
  }

  /** Every call is refused, put to a person, or run alone; refused is exactly what
      carries a tag that is never allowed. */
  lemma RefusedExactly(p: SitePolicy, tool: Tool, args: Args)
    ensures var d := Evaluate(p, tool, args);
            && (d.refuse <==> exists t :: t in tool.tags && t in NEVER_ALLOWED)
            && (RunsAlone(d) <==> !d.refuse && !d.requiresApproval)
            && !(d.refuse && d.requiresApproval)
  {
    hide TaggedHuman, PathIsProtected, TargetUrl, ApprovalType;
  }

  /** The rules under which only a person can release the action: reserved actions, words
      to third parties that do not go out alone, critical tools without a level of their own. */
  lemma PersonRequiredExactly(p: SitePolicy, tool: Tool, args: Args)
    ensures HumanOnly(Evaluate(p, tool, args).rule) <==>
            && !Evaluate(p, tool, args).refuse
            && (|| Reserved(p, tool, args)
                || (ReachesThirdParty(tool) && !RunsAlone(Evaluate(p, tool, args)))
                || (!PublishesContent(tool) && !ReachesThirdParty(tool) && tool.risk == Critical && tool.autoFrom.None?))
  {
    hide TaggedNever, TaggedHuman, PathIsProtected, TargetUrl, ApprovalType;
    ContentIsNotThirdParty(tool);
  }

  lemma ContentIsNotThirdParty(tool: Tool)
    ensures !(PublishesContent(tool) && ReachesThirdParty(tool))
  {
  }

  /** A waiting period is attached exactly to content and to technical work of low risk
      that would otherwise wait for a person, where the client set one; standing
      instructions never reach the rules reserved for a person. */
  lemma WaitingPeriodsAreNarrow(p: SitePolicy, tool: Tool, args: Args)
    ensures var d := Evaluate(p, tool, args);
            && (HumanOnly(d.rule) ==> d.requiresApproval && d.autoApproveAfter.None?)
            && (d.autoApproveAfter.Some? ==> d.requiresApproval && d.autoApproveAfter == p.autoApproveAfterHours)
            && (d.autoApproveAfter.Some? <==>
                  && p.autoApproveAfterHours.Some? && p.autoApproveAfterHours.value != 0
                  && !Reserved(p, tool, args) && !ReachesThirdParty(tool) && !RunsAlone(d)
                  && (PublishesContent(tool) || tool.risk in {NoRisk, Low}))
  {
    hide TaggedNever, TaggedHuman, PathIsProtected, TargetUrl, ApprovalType;
    ContentIsNotThirdParty(tool);
  }

  /** The site's level is the required one or above it. */
  ghost predicate AtLeast(site: Autonomy, required: Autonomy) {
    match required
    case Observe => true
    case Propose => site != Observe
    case Assisted => site != Observe && site != Propose
    case Managed => site == Managed || site == Autopilot
    case Autopilot => site == Autopilot
  }

  /** The levels at which technical work runs unattended: internal bookkeeping at any; a
      tool with a level of its own from there on; otherwise no or low risk from assisted
      on, medium from managed on, high or unlisted risk on autopilot, critical never. */
  lemma TechnicalRunsAloneExactly(p: SitePolicy, tool: Tool, args: Args)
    requires !Reserved(p, tool, args) && !PublishesContent(tool) && !ReachesThirdParty(tool)
    ensures RunsAlone(Evaluate(p, tool, args)) <==>
            || tool.risk == Internal
            || match tool.autoFrom
               case Some(level) => AtLeast(p.autonomy, level)
               case None =>
                 match tool.risk
                 case Internal => true
                 case NoRisk => AtLeast(p.autonomy, Assisted)
                 case Low => AtLeast(p.autonomy, Assisted)
                 case Medium => AtLeast(p.autonomy, Managed)
                 case High => AtLeast(p.autonomy, Autopilot)
                 case OtherRisk => AtLeast(p.autonomy, Autopilot)
                 case Critical => false
  {
    hide TaggedNever, TaggedHuman, PathIsProtected, TargetUrl, ApprovalType;
  }

  /** Below the assisted level nothing leaves the platform unattended: only internal
      bookkeeping runs, and technical tools that declare such a low level themselves. */
  lemma LowAutonomyAlwaysAsks(p: SitePolicy, tool: Tool, args: Args)
    requires p.autonomy in {Observe, Propose}
    ensures RunsAlone(Evaluate(p, tool, args)) <==>
            && !Reserved(p, tool, args) && !PublishesContent(tool) && !ReachesThirdParty(tool)
            && (tool.risk == Internal || tool.autoFrom == Some(Observe) || tool.autoFrom == Some(p.autonomy))
  {
    hide TaggedNever, TaggedHuman, PathIsProtected, TargetUrl, ApprovalType;
  }

  /** What the client agreed to beforehand: content of a named type, replies to good
      reviews, or outreach on its own. */
  ghost predicate ClientAgreed(p: SitePolicy, tool: Tool, args: Args) {
    match ApprovalType(tool)
    case "review_reply" => args.rating >= p.reviewReplyMinRating
    case "outreach_send" => p.outreachSending == "autonomous"
    case "content_publish" => exists t :: t in p.autoPublishTypes && t != "" && t == (if args.contentType != "" then args.contentType else args.kind)
    case "content_update" => exists t :: t in p.autoPublishTypes && t != "" && t == (if args.contentType != "" then args.contentType else args.kind)
    case _ => false
  }

  /** Words leave in the client's name unattended exactly when the client agreed to it
      beforehand and the site runs at a level that allows it. */
  lemma ClientsNameExactly(p: SitePolicy, tool: Tool, args: Args)
    requires PublishesContent(tool) || ReachesThirdParty(tool)
    ensures RunsAlone(Evaluate(p, tool, args)) <==>
            && !Reserved(p, tool, args) && ClientAgreed(p, tool, args)
            && (p.autonomy == Autopilot || (p.autonomy == Managed && ApprovalType(tool) != "outreach_send"))
  {
    hide TaggedNever, TaggedHuman, PathIsProtected, TargetUrl;
  }

  /** What is never run unattended, at any autonomy level: refused, protected, site-wide
      and overridden actions, words in the client's name without the client's agreement,
      critical tools that declare no level of their own, and nothing else. */
  lemma NeverUnattended(p: SitePolicy, tool: Tool, args: Args)
    ensures (forall a :: !RunsAlone(Evaluate(p.(autonomy := a), tool, args))) <==>
            || Reserved(p, tool, args)
            || (if PublishesContent(tool) || ReachesThirdParty(tool) then !ClientAgreed(p, tool, args)
                else tool.risk == Critical && tool.autoFrom.None?)
  {
    var top := p.(autonomy := Autopilot);
    forall a | RunsAlone(Evaluate(p.(autonomy := a), tool, args))
      ensures RunsAlone(Evaluate(top, tool, args))
    {
      MoreAutonomyAsksLess(p.(autonomy := a), Autopilot, tool, args);
    }
    hide TaggedNever, TaggedHuman, PathIsProtected, TargetUrl;
    if PublishesContent(tool) || ReachesThirdParty(tool) {
      ClientsNameExactly(top, tool, args);
    }
  }

  /** A critical tool that none of the earlier rules claims is run unattended at some
      autonomy level exactly when it declares its own level: then its risk is ignored. */
  lemma CriticalRunsAloneExactlyWhenDeclared(p: SitePolicy, tool: Tool, args: Args)
    requires tool.risk == Critical
    requires !Reserved(p, tool, args) && !PublishesContent(tool) && !ReachesThirdParty(tool)
    ensures (exists a :: RunsAlone(Evaluate(p.(autonomy := a), tool, args))) <==> tool.autoFrom.Some?
  {
    var top := p.(autonomy := Autopilot);
    if tool.autoFrom.Some? {
      assert RunsAlone(Evaluate(top, tool, args));
    }
  }
}
