/**
 * The alert router of alert_router.py: a per-key cooldown gate and the
 * router that consults it before handing a message to the Telegram bot.
 *
 * The clock is the parameter `now` (seconds). The bot's `send_message` is
 * the external sink, recorded as the sequence `sent` of messages handed to
 * it; what the router prints is recorded as the sequence `console`.
 */
module Router {
  import opened Wrappers

  /** The default cooldown window, in seconds. */
  const DefaultCooldownSeconds: int := 900

  /** Whether a key may be sent at `now`: never sent, or last sent more than `cooldown` seconds ago. */
  predicate Admits(lastSent: map<string, real>, cooldown: int, key: string, now: real)
  {
    key !in lastSent || now - lastSent[key] > cooldown as real
  }

  /** Exactly `cooldown` seconds after the last send the key is still suppressed. */
  lemma SuppressedThroughWindow(lastSent: map<string, real>, cooldown: int, key: string, now: real)
    requires key in lastSent && lastSent[key] <= now <= lastSent[key] + cooldown as real
    ensures !Admits(lastSent, cooldown, key, now)
  {
  }

  class Cooldown {
    /** Last send time per dedup key. */
    var lastSent: map<string, real>
    /** The window, in seconds. */
    const cooldown: int

    constructor (cooldown: int)
      ensures lastSent == map[] && this.cooldown == cooldown
    {
      lastSent := map[];
      this.cooldown := cooldown;
    }

    /**
     * Admits `key` when it was never sent or was last sent more than
     * `cooldown` seconds before `now`, and then records `now` for it;
     * otherwise suppresses it and changes nothing.
     */
    method Allow(key: string, now: real) returns (allowed: bool)
      modifies this
      ensures allowed <==> Admits(old(lastSent), cooldown, key, now)
      ensures allowed ==> lastSent == old(lastSent)[key := now]
      ensures !allowed ==> lastSent == old(lastSent)
      ensures forall k :: k != key ==> (k in lastSent <==> k in old(lastSent))
      ensures forall k :: k != key && k in lastSent ==> lastSent[k] == old(lastSent)[k]
    {
      if key !in lastSent || now - lastSent[key] > cooldown as real {
        lastSent := lastSent[key := now];
        return true;
      }
      return false;
    }
  }

  /** The Telegram bot, known by its token. */
  datatype Bot = Bot(token: string)

  /** One call of `send_message`. */
  datatype Message = Message(chatId: string, text: string, parseMode: string)

  /** The HTML text of a message: a sparkle, the bold title, a newline and the body. */
  function MessageText(title: string, body: string): (t: string)
    ensures |t| == |title| + |body| + 10
    ensures t[..5] == "\U{2728} <b>" && t[|t| - |body|..] == body
    ensures t[5..5 + |title|] == title && t[5 + |title|..5 + |title| + 5] == "</b>\n"
  {
    "\U{2728} <b>" + title + "</b>\n" + body
  }

  class AlertRouter {
    const bot: Option<Bot>
    const chatId: string
    const cooldown: Cooldown
    /** Messages handed to the external sink, oldest first. */
    var sent: seq<Message>
    /** Lines printed by the router, oldest first. */
    var console: seq<string>

    constructor (botToken: string, chatId: string, cooldownSeconds: int)
      ensures bot.None? <==> botToken == ""
      ensures bot.Some? ==> bot.value.token == botToken
      ensures this.chatId == chatId
      ensures fresh(cooldown) && cooldown.cooldown == cooldownSeconds && cooldown.lastSent == map[]
      ensures sent == [] && console == []
    {
      bot := if botToken != "" then Some(Bot(botToken)) else None;
      this.chatId := chatId;
      cooldown := new Cooldown(cooldownSeconds);
      sent := [];
      console := [];
    }

    /** No bot or no chat id: messages are only printed. */
    predicate Dry()
    {
      bot.None? || chatId == ""
    }

    /**
     * In dry mode prints the message and returns before any cooldown
     * accounting. Otherwise asks the cooldown gate: an admitted key is
     * sent to the chat as HTML, a suppressed one is only logged.
     */
    method Send(title: string, body: string, key: string, now: real)
      modifies this, cooldown
      ensures Dry() ==> console == old(console) + ["[DRY] " + title + ": " + body]
      ensures Dry() ==> sent == old(sent) && cooldown.lastSent == old(cooldown.lastSent)
      ensures !Dry() ==>
        var ok := Admits(old(cooldown.lastSent), cooldown.cooldown, key, now);
        && cooldown.lastSent == (if ok then old(cooldown.lastSent)[key := now] else old(cooldown.lastSent))
        && sent == (if ok then old(sent) + [Message(chatId, MessageText(title, body), "HTML")] else old(sent))
        && console == (if ok then old(console) else old(console) + ["[SKIP] cooldown active for " + key])
    {
      if Dry() {
        console := console + ["[DRY] " + title + ": " + body];
        return;
      }
      var ok := cooldown.Allow(key, now);
      if ok {
        sent := sent + [Message(chatId, MessageText(title, body), "HTML")];
      } else {
        console := console + ["[SKIP] cooldown active for " + key];
      }
    }
  }

  /**
   * With a 900-second window, calls at 0, 500, 900 and 901 seconds are
   * admitted, suppressed, suppressed (the comparison is strict) and admitted.
   */
  method CooldownScenario() returns (results: seq<bool>)
    ensures results == [true, false, false, true]
  {
    var c := new Cooldown(DefaultCooldownSeconds);
    var a := c.Allow("k", 0.0);
    var b := c.Allow("k", 500.0);
    var d := c.Allow("k", 900.0);
    var e := c.Allow("k", 901.0);
    results := [a, b, d, e];
  }

  /** Two calls at the same instant: the first is admitted, the second is not. */
  method SameInstantScenario(cooldown: int, key: string, now: real) returns (first: bool, second: bool)
    requires cooldown >= 0
    ensures first && !second
  {
    var c := new Cooldown(cooldown);
    first := c.Allow(key, now);
    second := c.Allow(key, now);
  }

  /** Keys cool down independently: a second key is admitted at once. */
  method IndependentKeysScenario(cooldown: int, k1: string, k2: string, now: real) returns (first: bool, second: bool)
    requires k1 != k2
    ensures first && second
  {
    var c := new Cooldown(cooldown);
    first := c.Allow(k1, now);
    second := c.Allow(k2, now);
  }

  /**
   * A configured router with a 900-second window: sends at 0, 500 and 901
   * seconds with one key reach the sink twice, at 0 and at 901.
   */
  method DispatchScenario() returns (delivered: seq<Message>, printed: seq<string>)
    ensures delivered == [Message("chat", MessageText("A", "B"), "HTML"), Message("chat", MessageText("A", "B"), "HTML")]
    ensures printed == ["[SKIP] cooldown active for k1"]
  {
    var r := new AlertRouter("token", "chat", DefaultCooldownSeconds);
    r.Send("A", "B", "k1", 0.0);
    r.Send("A", "B", "k1", 500.0);
    r.Send("A", "B", "k1", 901.0);
    assert "[SKIP] cooldown active for " + "k1" == "[SKIP] cooldown active for k1";
    delivered, printed := r.sent, r.console;
  }

  /** Without a bot token every send is printed, and the cooldown map stays empty. */
  method DryScenario() returns (delivered: seq<Message>, printed: seq<string>, tracked: set<string>)
    ensures delivered == [] && tracked == {}
    ensures printed == ["[DRY] A: B", "[DRY] A: B"]
  {
    var r := new AlertRouter("", "chat", DefaultCooldownSeconds);
    r.Send("A", "B", "k1", 0.0);
    r.Send("A", "B", "k1", 0.0);
    assert "[DRY] " + "A" + ": " + "B" == "[DRY] A: B";
    delivered, printed, tracked := r.sent, r.console, r.cooldown.lastSent.Keys;
  }
}
