/** The `set_webhook` management command: points the bot's webhook at the
    deployment's update endpoint. The environment lookup of the bot token
    and the HTTP answer are parameters; the console and the outgoing
    request are logs the command appends to. */
module Webhook {
  import opened Wrappers
  import opened Text

  /** The path every webhook URL must end with. */
  const UrlTail: string := "/api/telegram_bot/user_message/"

  /** The webhook URL actually registered: `url` itself when it already ends
      with the update path, otherwise `url` with the path appended. */
  function NormalizeWebhookUrl(url: string): (r: string)
    ensures EndsWith(r, UrlTail)
  {
    if EndsWith(url, UrlTail) then url else url + UrlTail
  }

  /** A URL that already ends with the path is registered unchanged, and
      one that does not gets the path appended exactly once, after the URL
      as given. */
  lemma NormalizeKeepsOrAppendsOnce(url: string)
    ensures EndsWith(url, UrlTail) <==> NormalizeWebhookUrl(url) == url
    ensures !EndsWith(url, UrlTail) ==>
              && NormalizeWebhookUrl(url)[..|url|] == url
              && NormalizeWebhookUrl(url)[|url|..] == UrlTail
  {
  }

  /** Normalising twice is normalising once. */
  lemma NormalizeIdempotent(url: string)
    ensures NormalizeWebhookUrl(NormalizeWebhookUrl(url)) == NormalizeWebhookUrl(url)
  {
  }

  /** The text `f"{bot_token}"` gives: the token, or "None" when the
      variable is not set. */
  function TokenText(botToken: Option<string>): string {
    match botToken
    case Some(t) => t
    case None => "None"
  }

  /** The `setWebhook` endpoint of the Bot API for a token. */
  function SetWebhookEndpoint(botToken: Option<string>): string {
    "https://api.telegram.org/bot" + TokenText(botToken) + "/setWebhook"
  }

  /** A form-encoded POST to the Bot API with a `url` field. */
  datatype Request = Request(endpoint: string, url: string)

  /** What the command reads from the answer: the status code and the
      `ok` flag. */
  datatype Response = Response(statusCode: int, ok: bool)

  /** Python's `repr` of a requests response. */
  function ResponseRepr(response: Response): string {
    "<Response [" + IntToString(response.statusCode) + "]>"
  }

  /** A styled console line. */
  datatype ConsoleLine = Notice(text: string) | Success(text: string)

  /** The registration went through: status 200 and `ok` true. */
  predicate Accepted(response: Response) {
    response.statusCode == 200 && response.ok
  }

  /** The command with its console and its outgoing requests. */
  class Command {
    var stdout: seq<ConsoleLine>
    var requests: seq<Request>

    constructor ()
      ensures stdout == [] && requests == []
    {
      stdout := [];
      requests := [];
    }

    /** `handle`: normalises the URL, announces it, posts it to
        `setWebhook`, and reports success, or fails with `CommandError`
        (its message) unless the answer has status 200 and `ok` true.
        `response` is the answer the post gets. */
    method Handle(url: string, botToken: Option<string>, response: Response) returns (o: Outcome<string>)
      modifies this
      ensures requests == old(requests) + [Request(SetWebhookEndpoint(botToken), NormalizeWebhookUrl(url))]
      ensures o.Pass? <==> Accepted(response)
      ensures o.Pass? ==>
                stdout == old(stdout) + [Notice("Setting webhook to " + NormalizeWebhookUrl(url)),
                                         Success("Webhook set successfully.")]
      ensures o.Fail? ==>
                && stdout == old(stdout) + [Notice("Setting webhook to " + NormalizeWebhookUrl(url))]
                && o.error == "setting webhook to " + NormalizeWebhookUrl(url) + " failed. Response: "
                              + ResponseRepr(response) + "."
    {
      var webhookUrl := url;
      if !EndsWith(webhookUrl, UrlTail) {
        webhookUrl := webhookUrl + UrlTail;
      }
      stdout := stdout + [Notice("Setting webhook to " + webhookUrl)];
      requests := requests + [Request(SetWebhookEndpoint(botToken), webhookUrl)];
      if response.statusCode != 200 || !response.ok {
        return Fail("setting webhook to " + webhookUrl + " failed. Response: " + ResponseRepr(response) + ".");
      }
      stdout := stdout + [Success("Webhook set successfully.")];
      return Pass;
    }
  }
}
