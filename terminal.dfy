/** The console the plugin talks to, driven by a script of operator replies.
    Every prompt and every message is written to a transcript. */
module Terminal {
  import opened Text

  datatype Line =
    | Warning(text: string)
    | Info(text: string)
    | Question(text: string)
    | Menu(title: string, options: seq<string>)

  /** The replies still to come and the transcript so far. */
  datatype Tty = Tty(answers: seq<string>, transcript: seq<Line>)

  /** Show `prompt` and take the next reply, if there is one. */
  function Reply(t: Tty, prompt: Line): (Option<string>, Tty)
  {
    var shown := t.transcript + [prompt];
    if t.answers == [] then (None, Tty([], shown))
    else (Some(t.answers[0]), Tty(t.answers[1..], shown))
  }

  /** A yes/no question: an empty reply takes the default, any other reply
      means yes exactly when it starts with `y` or `Y`. */
  function Confirming(t: Tty, question: string, default: bool): (Option<bool>, Tty)
  {
    var (a, t') := Reply(t, Question(question));
    match a
    case None => (None, t')
    case Some(s) => (Some(if s == "" then default else s[0] == 'y' || s[0] == 'Y'), t')
  }

  /** A free-text question; an empty reply takes the default. */
  function Asking(t: Tty, question: string, default: string): (Option<string>, Tty)
  {
    var (a, t') := Reply(t, Question(question));
    match a
    case None => (None, t')
    case Some(s) => (Some(if s == "" then default else s), t')
  }

  /** A free-text question that accepts only a non-empty reply. */
  function AskingRequired(t: Tty, question: string): (Option<string>, Tty)
  {
    var (a, t') := Reply(t, Question(question));
    match a
    case None => (None, t')
    case Some(s) => (if s == "" then None else Some(s), t')
  }

  /** A single choice among `options`, answered by the text of one option. */
  function Choosing(t: Tty, title: string, options: seq<string>): (Option<string>, Tty)
  {
    var (a, t') := Reply(t, Menu(title, options));
    match a
    case None => (None, t')
    case Some(s) => (if s in options then Some(s) else None, t')
  }

  function Say(t: Tty, line: Line): Tty
  {
    t.(transcript := t.transcript + [line])
  }

  /** The console facade over a script of replies. */
  class Console {
    var answers: seq<string>
    var transcript: seq<Line>

    constructor (script: seq<string>)
      ensures answers == script && transcript == []
    {
      answers, transcript := script, [];
    }

    function State(): Tty
      reads this
    {
      Tty(answers, transcript)
    }

    method Next(prompt: Line) returns (a: Option<string>)
      modifies this
      ensures (a, State()) == Reply(old(State()), prompt)
    {
      transcript := transcript + [prompt];
      if answers == [] {
        a := None;
      } else {
        a := Some(answers[0]);
        answers := answers[1..];
      }
    }

    method Confirm(question: string, default: bool) returns (r: Option<bool>)
      modifies this
      ensures (r, State()) == Confirming(old(State()), question, default)
    {
      var a := Next(Question(question));
      if a.None? {
        r := None;
      } else if a.value == "" {
        r := Some(default);
      } else {
        r := Some(a.value[0] == 'y' || a.value[0] == 'Y');
      }
    }

    method Ask(question: string, default: string) returns (r: Option<string>)
      modifies this
      ensures (r, State()) == Asking(old(State()), question, default)
    {
      var a := Next(Question(question));
      if a.None? {
        r := None;
      } else if a.value == "" {
        r := Some(default);
      } else {
        r := a;
      }
    }

    method AskRequired(question: string) returns (r: Option<string>)
      modifies this
      ensures (r, State()) == AskingRequired(old(State()), question)
    {
      var a := Next(Question(question));
      if a.None? || a.value == "" {
        r := None;
      } else {
        r := a;
      }
    }

    /** `Console::choiceFromCollection($title, $items, 'name')`, over the items' names. */
    method ChoiceFromCollection(title: string, options: seq<string>) returns (r: Option<string>)
      modifies this
      ensures (r, State()) == Choosing(old(State()), title, options)
    {
      var a := Next(Menu(title, options));
      if a.None? || a.value !in options {
        r := None;
      } else {
        r := a;
      }
    }

    method Warn(text: string)
      modifies this
      ensures State() == Say(old(State()), Warning(text))
    {
      transcript := transcript + [Warning(text)];
    }

    method Info(text: string)
      modifies this
      ensures State() == Say(old(State()), Line.Info(text))
    {
      transcript := transcript + [Line.Info(text)];
    }
  }
}
