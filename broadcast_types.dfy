/** The broadcasting records (src/types/broadcast.ts) used by the broadcast
    service. The rates are stored numbers (`real`); nothing in the service
    computes them. */
module BroadcastTypes {
  import opened Common

  datatype CampaignType = Announcement | ReminderCampaign | Emergency | Promotional | Educational
  datatype CampaignStatus = Draft | Scheduled | Sending | Sent | Failed

  datatype TargetAudience = TargetAudience(
    roles: seq<string>,
    groups: seq<string>,
    individuals: seq<string>,
    filters: map<string, string>)

  datatype AnalyticsDataPoint = AnalyticsDataPoint(
    timestamp: string, sent: int, delivered: int, read: int, replied: int, failed: int)

  datatype BroadcastAnalytics = BroadcastAnalytics(
    totalSent: int,
    delivered: int,
    read: int,
    replied: int,
    failed: int,
    optedOut: int,
    deliveryRate: real,
    readRate: real,
    responseRate: real,
    optOutRate: real,
    timeline: seq<AnalyticsDataPoint>)

  datatype BroadcastCampaign = BroadcastCampaign(
    id: string,
    name: string,
    description: string,
    campaignType: CampaignType,
    status: CampaignStatus,
    templateId: string,
    targetAudience: TargetAudience,
    scheduledAt: Option<string>,
    sentAt: Option<string>,
    createdAt: string,
    createdBy: string,
    analytics: BroadcastAnalytics)

  datatype ButtonType = UrlButton | PhoneButton | QuickReply
  datatype TemplateButton = TemplateButton(buttonType: ButtonType, text: string, value: string)

  datatype MediaType = Image | Video | Document
  datatype TemplateMedia = TemplateMedia(mediaType: MediaType, url: string, caption: Option<string>)

  datatype TemplateContent = TemplateContent(text: string, media: Option<TemplateMedia>, buttons: Option<seq<TemplateButton>>)

  datatype VariableType = TextVar | NumberVar | DateVar | CurrencyVar
  datatype TemplateVariable = TemplateVariable(name: string, varType: VariableType, required: bool, defaultValue: Option<string>)

  datatype TemplateLanguage = En | Ar | Both

  datatype BroadcastTemplate = BroadcastTemplate(
    id: string,
    name: string,
    category: string,
    language: TemplateLanguage,
    content: TemplateContent,
    variables: seq<TemplateVariable>,
    isApproved: bool,
    createdAt: string,
    updatedAt: string)

  function CampaignIds(s: seq<BroadcastCampaign>): seq<string> {
    seq(|s|, k requires 0 <= k < |s| => s[k].id)
  }
}
