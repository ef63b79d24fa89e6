/**
 * The Telegram notifier of the tool module (src/tool/tg.rs).
 *
 * The bot client is left out: every call to the Telegram API becomes a
 * `Request` in the order it is issued, and `respond` is the answer the API
 * gives to a request. Subscribers are chat ids kept as text.
 */
module ToolTg {
  import opened Wrappers

  /** `struct Config`. */
  datatype Config = Config(debug: bool, token: string, subscribers: seq<string>)

  /** `struct TgBot` without its client: the push list and the debug switch. */
  datatype TgBot = TgBot(pushList: seq<string>, debug: bool)

  /** `InlineKeyboardButton::callback(text, data)`. */
  datatype Button = Button(text: string, callbackData: string)

  /** A request to the Telegram API; a message may carry an inline keyboard. */
  datatype Request =
    | SendMessage(chat: string, text: string, markup: Option<seq<seq<Button>>>)
    | SendDocument(chat: string, path: string)

  /** `TgBot::new`: the subscriber list and the debug flag of the configuration, verbatim. */
  function NewTgBot(config: Config): (bot: TgBot)
    ensures bot.pushList == config.subscribers && bot.debug == config.debug
  {
    TgBot(config.subscribers, config.debug)
  }

  /** `TgBot::new_with_bot`: the given subscriber list and debug flag, verbatim. */
  function NewWithBot(subscribers: seq<string>, debug: bool): (bot: TgBot)
    ensures bot.pushList == subscribers && bot.debug == debug
  {
    TgBot(subscribers, debug)
  }

  /** One keyboard row: a callback button per (label, data) pair, in order. */
  function Row(pairs: seq<(string, string)>): (row: seq<Button>)
    ensures |row| == |pairs|
    ensures forall j :: 0 <= j < |row| ==> row[j] == Button(pairs[j].0, pairs[j].1)
    decreases |pairs|
  {
    if |pairs| == 0 then [] else [Button(pairs[0].0, pairs[0].1)] + Row(pairs[1..])
  }

  /** `button.chunks(3)`, each chunk made a row: full rows of three, then the rest. */
  function KeyboardOf(pairs: seq<(string, string)>): seq<seq<Button>>
    decreases |pairs|
  {
    if |pairs| == 0 then []
    else if |pairs| <= 3 then [Row(pairs)]
    else [Row(pairs[..3])] + KeyboardOf(pairs[3..])
  }

  /** There are ceil(n/3) rows, no row for no buttons, every row but the last full and the last holding one to three. */
  lemma {:induction false} KeyboardShape(pairs: seq<(string, string)>)
    ensures |KeyboardOf(pairs)| == (|pairs| + 2) / 3
    ensures forall r :: 0 <= r < |KeyboardOf(pairs)| - 1 ==> |KeyboardOf(pairs)[r]| == 3
    ensures |KeyboardOf(pairs)| > 0 ==> 1 <= |KeyboardOf(pairs)[|KeyboardOf(pairs)| - 1]| <= 3
    decreases |pairs|
  {
    if |pairs| > 3 {
      KeyboardShape(pairs[3..]);
      var kb := KeyboardOf(pairs);
      assert kb[1..] == KeyboardOf(pairs[3..]);
      assert forall r :: 1 <= r < |kb| ==> kb[r] == kb[1..][r - 1];
    }
  }

  function Flatten(rows: seq<seq<Button>>): seq<Button>
    decreases |rows|
  {
    if |rows| == 0 then [] else rows[0] + Flatten(rows[1..])
  }

  lemma {:induction false} RowAppend(a: seq<(string, string)>, b: seq<(string, string)>)
    ensures Row(a + b) == Row(a) + Row(b)
  {
    assert Row(a + b) == Row(a) + Row(b);
  }

  /** Reading the rows one after another gives back every button, in the order they were given. */
  lemma {:induction false} KeyboardFlattens(pairs: seq<(string, string)>)
    ensures Flatten(KeyboardOf(pairs)) == Row(pairs)
    decreases |pairs|
  {
    if |pairs| > 3 {
      KeyboardFlattens(pairs[3..]);
      assert pairs == pairs[..3] + pairs[3..];
      RowAppend(pairs[..3], pairs[3..]);
      var kb := KeyboardOf(pairs);
      assert kb[0] == Row(pairs[..3]) && kb[1..] == KeyboardOf(pairs[3..]);
    } else if |pairs| > 0 {
      var kb := KeyboardOf(pairs);
      assert kb[1..] == [];
      assert Row(pairs) + [] == Row(pairs);
    }
  }

  /** From position `i`, the keyboard is the row of the next (up to) three pairs, then the keyboard of the rest. */
  lemma KeyboardStep(pairs: seq<(string, string)>, i: nat)
    requires i < |pairs|
    ensures var j := if i + 3 <= |pairs| then i + 3 else |pairs|;
            KeyboardOf(pairs[i..]) == [Row(pairs[i..j])] + KeyboardOf(pairs[j..])
  {
    var rest := pairs[i..];
    var j := if i + 3 <= |pairs| then i + 3 else |pairs|;
    if |rest| > 3 {
      assert rest[..3] == pairs[i..j] && rest[3..] == pairs[j..];
    } else {
      assert rest == pairs[i..j] && pairs[j..] == [];
    }
  }

  /** The keyboard loop of `notify_with_button`: a row pushed per chunk of three. */
  method BuildKeyboard(pairs: seq<(string, string)>) returns (kb: seq<seq<Button>>)
    ensures kb == KeyboardOf(pairs)
  {
    kb := [];
    var i := 0;
    while i < |pairs|
      invariant 0 <= i <= |pairs|
      invariant kb + KeyboardOf(pairs[i..]) == KeyboardOf(pairs)
      decreases |pairs| - i
    {
      var j := if i + 3 <= |pairs| then i + 3 else |pairs|;
      KeyboardStep(pairs, i);
      var row := Row(pairs[i..j]);
      assert kb + KeyboardOf(pairs[i..]) == (kb + [row]) + KeyboardOf(pairs[j..]);
      kb := kb + [row];
      i := j;
    }
    assert pairs[i..] == [];
    assert kb + [] == kb;
  }

  /** The requests made for the subscribers of `pushList`, in order, whatever the API answers. */
  function Fanout(pushList: seq<string>, make: string -> Request): (sends: seq<Request>)
    ensures |sends| == |pushList|
    ensures forall i :: 0 <= i < |sends| ==> sends[i] == make(pushList[i])
  {
    seq(|pushList|, i requires 0 <= i < |pushList| => make(pushList[i]))
  }

  /**
   * `notify`: in debug mode only a log line; otherwise the text is sent to
   * every subscriber in list order, and a failed send does not stop the ones
   * after it.
   */
  method Notify(bot: TgBot, msg: string, respond: Request -> Result<(), string>) returns (sends: seq<Request>)
    ensures bot.debug ==> sends == []
    ensures !bot.debug ==> sends == Fanout(bot.pushList, chat => SendMessage(chat, msg, None))
  {
    sends := [];
    if !bot.debug {
      var i := 0;
      while i < |bot.pushList|
        invariant i <= |bot.pushList| && |sends| == i
        invariant forall j :: 0 <= j < i ==> sends[j] == SendMessage(bot.pushList[j], msg, None)
      {
        var req := SendMessage(bot.pushList[i], msg, None);
        var _ := respond(req);
        sends := sends + [req];
        i := i + 1;
      }
    }
  }

  /**
   * `notify_with_button`: in debug mode only a log line; otherwise the
   * buttons are laid out three to a row and the text with that keyboard is
   * sent to every subscriber in list order, failures ignored.
   */
  method NotifyWithButton(bot: TgBot, msg: string, button: seq<(string, string)>,
                          respond: Request -> Result<(), string>) returns (sends: seq<Request>)
    ensures bot.debug ==> sends == []
    ensures !bot.debug ==> sends == Fanout(bot.pushList, chat => SendMessage(chat, msg, Some(KeyboardOf(button))))
  {
    sends := [];
    if !bot.debug {
      var keyboard := BuildKeyboard(button);
      var i := 0;
      while i < |bot.pushList|
        invariant i <= |bot.pushList| && |sends| == i
        invariant forall j :: 0 <= j < i ==> sends[j] == SendMessage(bot.pushList[j], msg, Some(keyboard))
      {
        var req := SendMessage(bot.pushList[i], msg, Some(keyboard));
        var _ := respond(req);
        sends := sends + [req];
        i := i + 1;
      }
    }
  }

  /** The errors of the failed requests among `sends`, in order. */
  function Failures(sends: seq<Request>, respond: Request -> Result<(), string>): (errs: seq<string>)
    ensures |errs| <= |sends|
    decreases |sends|
  {
    if |sends| == 0 then []
    else
      var last := respond(sends[|sends| - 1]);
      Failures(sends[..|sends| - 1], respond) + (if last.Err? then [last.error] else [])
  }

  /**
   * `notify_file`: in debug mode only a log line; otherwise the file is sent
   * to every subscriber in list order; each failure is logged and the loop
   * goes on.
   */
  method NotifyFile(bot: TgBot, file: string, respond: Request -> Result<(), string>)
    returns (sends: seq<Request>, logged: seq<string>)
    ensures bot.debug ==> sends == [] && logged == []
    ensures !bot.debug ==> sends == Fanout(bot.pushList, chat => SendDocument(chat, file))
    ensures logged == Failures(sends, respond)
  {
    sends := [];
    logged := [];
    if !bot.debug {
      var i := 0;
      while i < |bot.pushList|
        invariant i <= |bot.pushList| && |sends| == i
        invariant forall j :: 0 <= j < i ==> sends[j] == SendDocument(bot.pushList[j], file)
        invariant logged == Failures(sends, respond)
      {
        var req := SendDocument(bot.pushList[i], file);
        var answer := respond(req);
        assert (sends + [req])[..i] == sends;
        if answer.Err? {
          logged := logged + [answer.error];
        }
        sends := sends + [req];
        i := i + 1;
      }
    }
  }

  /** Every send is logged iff every send failed, and nothing is logged iff every send succeeded. */
  lemma {:induction false} FailuresExact(sends: seq<Request>, respond: Request -> Result<(), string>)
    ensures |Failures(sends, respond)| == |sends| <==> forall i :: 0 <= i < |sends| ==> respond(sends[i]).Err?
    ensures Failures(sends, respond) == [] <==> forall i :: 0 <= i < |sends| ==> respond(sends[i]).Ok?
    decreases |sends|
  {
    if |sends| > 0 {
      var p := sends[..|sends| - 1];
      FailuresExact(p, respond);
      assert forall i :: 0 <= i < |p| ==> p[i] == sends[i];
    }
  }
}
