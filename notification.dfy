/**
 * The notification fan-out: one message is offered to up to three channels
 * (Telegram, WeChat through pushplus, a webhook), each attempted only when its
 * fields are set, in a fixed order, each awaited before the next. A channel's
 * failure is caught inside its own sender, so it neither stops the later
 * channels nor escapes `send`. The transports are oracles: whether the HTTP
 * call to a channel fails.
 */
module Notification {
  import opened Wrappers

  /** `NotificationConfig`; an absent optional field is the empty string (both are falsy in the checks). */
  datatype NotificationConfig = NotificationConfig(
    username: string,
    tgBotToken: string,
    tgChatId: string,
    wxPusherId: string,
    webhook: string,
    proxy: string)

  datatype Channel = Telegram | WeChat | Webhook

  /** The body each sender posts, with its endpoint. */
  datatype Request =
    | TelegramMessage(url: string, chatId: string, text: string)
    | WeChatMessage(url: string, token: string, content: string)
    | WebhookPost(url: string, username: string, content: string)

  /** One delivery attempt: the request, the proxy handed to the HTTP client, and whether the call succeeded. */
  datatype Attempt = Attempt(channel: Channel, request: Request, proxy: Option<string>, delivered: bool)

  const PushplusUrl: string := "http://www.pushplus.plus/send"

  /** The text sent to Telegram and WeChat: the account in corner brackets, then the content. */
  function Message(username: string, content: string): string {
    "【" + username + "】" + content
  }

  lemma MessageLayout(username: string, content: string)
    ensures var m := Message(username, content);
      |m| == |username| + |content| + 2 &&
      m[0] == '【' && m[1..|username| + 1] == username &&
      m[|username| + 1] == '】' && m[|username| + 2..] == content
  {
  }

  /** The proxy passed to every sender: only when `config.proxy` is set. */
  function ProxyFor(config: NotificationConfig): Option<string> {
    if config.proxy != "" then Some(config.proxy) else None
  }

  function Rank(c: Channel): nat {
    match c
    case Telegram => 0
    case WeChat => 1
    case Webhook => 2
  }

  /** The channels `send` attempts for `config`, in the order it attempts them. */
  function Selected(config: NotificationConfig): (cs: seq<Channel>)
    ensures Telegram in cs <==> config.tgBotToken != "" && config.tgChatId != ""
    ensures WeChat in cs <==> config.wxPusherId != ""
    ensures Webhook in cs <==> config.webhook != ""
    ensures forall i, j :: 0 <= i < j < |cs| ==> Rank(cs[i]) < Rank(cs[j])
  {
    (if config.tgBotToken != "" && config.tgChatId != "" then [Telegram] else []) +
    (if config.wxPusherId != "" then [WeChat] else []) +
    (if config.webhook != "" then [Webhook] else [])
  }

  /** What the sender of channel `c` posts for `content`. */
  function RequestFor(config: NotificationConfig, content: string, c: Channel): Request {
    match c
    case Telegram =>
      TelegramMessage("https://api.telegram.org/bot" + config.tgBotToken + "/sendMessage",
                      config.tgChatId, Message(config.username, content))
    case WeChat => WeChatMessage(PushplusUrl, config.wxPusherId, Message(config.username, content))
    case Webhook => WebhookPost(config.webhook, config.username, content)
  }

  function AttemptOf(config: NotificationConfig, content: string, fails: Channel -> bool, c: Channel): Attempt {
    Attempt(c, RequestFor(config, content, c), ProxyFor(config), !fails(c))
  }

  /**
   * The attempts one `send(config, content)` makes when the channels in
   * `fails` fail: one per selected channel, in order, whatever the others did.
   */
  function Plan(config: NotificationConfig, content: string, fails: Channel -> bool): seq<Attempt> {
    (if config.tgBotToken != "" && config.tgChatId != "" then [AttemptOf(config, content, fails, Telegram)] else []) +
    (if config.wxPusherId != "" then [AttemptOf(config, content, fails, WeChat)] else []) +
    (if config.webhook != "" then [AttemptOf(config, content, fails, Webhook)] else [])
  }

  /** One attempt per selected channel, in the selection's order, each carrying that channel's own outcome. */
  lemma PlanFollowsSelection(config: NotificationConfig, content: string, fails: Channel -> bool)
    ensures var p := Plan(config, content, fails);
      |p| == |Selected(config)| &&
      forall i :: 0 <= i < |p| ==> p[i] == AttemptOf(config, content, fails, Selected(config)[i])
  {
  }

  /** Which channels are attempted does not depend on which of them fail. */
  lemma FailuresAreIsolated(config: NotificationConfig, content: string, fails1: Channel -> bool, fails2: Channel -> bool)
    ensures |Plan(config, content, fails1)| == |Plan(config, content, fails2)|
    ensures forall i :: 0 <= i < |Plan(config, content, fails1)| ==>
      Plan(config, content, fails1)[i].channel == Plan(config, content, fails2)[i].channel &&
      Plan(config, content, fails1)[i].request == Plan(config, content, fails2)[i].request
  {
    PlanFollowsSelection(config, content, fails1);
    PlanFollowsSelection(config, content, fails2);
  }

  /** With no channel field set, no delivery is attempted. */
  lemma NoTargetsNoAttempts(config: NotificationConfig, content: string, fails: Channel -> bool)
    requires config.tgBotToken == "" && config.wxPusherId == "" && config.webhook == ""
    ensures Plan(config, content, fails) == []
  {
  }

  /** Only a webhook configured: exactly one attempt, to the webhook, carrying the raw content. */
  lemma OnlyWebhook(config: NotificationConfig, content: string, fails: Channel -> bool)
    requires config.tgChatId == "" && config.wxPusherId == "" && config.webhook != ""
    ensures Plan(config, content, fails) ==
      [Attempt(Webhook, WebhookPost(config.webhook, config.username, content), ProxyFor(config), !fails(Webhook))]
  {
  }

  /** All three channels configured: three attempts in the fixed order, each made whether or not another fails. */
  lemma AllChannels(config: NotificationConfig, content: string, fails: Channel -> bool)
    requires config.tgBotToken != "" && config.tgChatId != "" && config.wxPusherId != "" && config.webhook != ""
    ensures var p := Plan(config, content, fails);
      |p| == 3 && p[0].channel == Telegram && p[1].channel == WeChat && p[2].channel == Webhook &&
      forall i :: 0 <= i < 3 ==> p[i].delivered == !fails(p[i].channel)
  {
    assert Selected(config) == [Telegram, WeChat, Webhook];
    PlanFollowsSelection(config, content, fails);
  }

  /** The notification service; `attempts` is the record of the HTTP calls its senders have made. */
  class NotificationService {
    var attempts: seq<Attempt>

    constructor ()
      ensures attempts == []
    {
      attempts := [];
    }

    /** `send(config, content)`: never fails; each channel's error is absorbed by its own sender. */
    method Send(config: NotificationConfig, content: string, fails: Channel -> bool)
      modifies this
      ensures attempts == old(attempts) + Plan(config, content, fails)
    {
      var message := Message(config.username, content);
      var proxy := if config.proxy != "" then Some(config.proxy) else None;
      var made: seq<Attempt> := [];
      if config.tgBotToken != "" && config.tgChatId != "" {
        var request := TelegramMessage("https://api.telegram.org/bot" + config.tgBotToken + "/sendMessage",
                                       config.tgChatId, message);
        made := made + [Attempt(Telegram, request, proxy, !fails(Telegram))];
      }
      if config.wxPusherId != "" {
        made := made + [Attempt(WeChat, WeChatMessage(PushplusUrl, config.wxPusherId, message), proxy, !fails(WeChat))];
      }
      if config.webhook != "" {
        made := made + [Attempt(Webhook, WebhookPost(config.webhook, config.username, content), proxy, !fails(Webhook))];
      }
      attempts := attempts + made;
    }
  }
}
