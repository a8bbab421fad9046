/**
 * The welcome page of `src/ui/welcome_view.py`: a greeting chosen by the hour of day,
 * the user's display name after it, four instruction lines and the logo text, all from
 * the page's own `LanguageManager`; or, once loading the user failed, only the failure
 * text. The hour and the API's `current_user` answer are parameters. `QLabel.setText`
 * accepts only strings, so a translation that is some other value raises, and
 * `update_ui_texts` catches that and stops where it was.
 */
module WelcomeView {
  import opened Wrappers
  import opened Json
  import LanguageManager

  const MessageKeys: seq<string> := ["home.welcome_msg", "home.instruction_1", "home.instruction_2", "home.instruction_3"]
  const LoadingFailedDefault := "加载失败，请检查网络连接"
  const AppNameDefault := "SpotifyExport"

  /** The greeting for an hour of the day: morning from 5 to 11, afternoon from 12 to 17, evening otherwise. */
  function GreetingKey(hour: int): (k: string)
    ensures k == "home.good_morning" <==> 5 <= hour < 12
    ensures k == "home.good_afternoon" <==> 12 <= hour < 18
    ensures k == "home.good_evening" <==> hour < 5 || hour >= 18
  {
    if 5 <= hour < 12 then "home.good_morning"
    else if 12 <= hour < 18 then "home.good_afternoon"
    else "home.good_evening"
  }

  /** Every hour of the day gets exactly one of the three greetings. */
  lemma GreetingsPartitionDay(hour: int)
    requires 0 <= hour < 24
    ensures GreetingKey(hour) in {"home.good_morning", "home.good_afternoon", "home.good_evening"}
    ensures |set h | 0 <= h < 24 && GreetingKey(h) == "home.good_morning"| == 7
  {
    var morning := set h | 0 <= h < 24 && GreetingKey(h) == "home.good_morning";
    assert morning == {5, 6, 7, 8, 9, 10, 11} by {
      forall h | h in morning ensures h in {5, 6, 7, 8, 9, 10, 11} {
        assert 5 <= h < 12;
      }
    }
  }

  /** What `setText` puts on a label for a value: a string is shown, anything else raises. */
  function LabelText(v: Value): Option<string>
  {
    if v.Str? then Some(v.s) else None
  }

  /** The welcome line: `f"{greeting}，{user_name}"` when a name was loaded, else the greeting itself. */
  function WelcomeLine(greeting: Value, userName: Option<Value>): (line: Option<string>)
    ensures userName.Some? ==> line.Some?
    ensures userName.None? ==> line == LabelText(greeting)
  {
    if userName.Some? then Some(PyStr(greeting) + "，" + PyStr(userName.value))
    else LabelText(greeting)
  }

  /** How many of the first `m` values can be shown before the first one that raises. */
  function LeadingTexts(vs: seq<Value>, m: nat): (k: nat)
    requires m <= |vs|
    ensures k <= m
    ensures forall j :: 0 <= j < k ==> vs[j].Str?
    ensures k < m ==> !vs[k].Str?
  {
    if m == 0 then 0
    else
      var k := LeadingTexts(vs, m - 1);
      if k == m - 1 && vs[m - 1].Str? then m else k
  }

  /** The texts on the page's labels. `errorText` is the latest error label's, None while it is blank or absent. */
  datatype Labels = Labels(errorText: Option<string>, welcome: string, messages: seq<string>, logo: string)

  /** The translations of the four instruction keys. */
  function MessageValues(current: Option<string>, translations: map<string, Value>): (vs: seq<Value>)
    ensures |vs| == |MessageKeys|
  {
    seq(|MessageKeys|, i requires 0 <= i < |MessageKeys| => LanguageManager.TextOf(current, translations, MessageKeys[i], Str("")))
  }

  /** The smaller of the number of labels and the number of instruction keys. */
  function Fill(labels: seq<string>): (m: nat)
    ensures m <= |labels| && m <= |MessageKeys|
    ensures m == |labels| || m == |MessageKeys|
  {
    if |labels| < |MessageKeys| then |labels| else |MessageKeys|
  }

  /** The instruction labels after the loop: each label up to the first value that raises shows its value. */
  function ShownMessages(labels: seq<string>, vs: seq<Value>): (r: seq<string>)
    requires |vs| == |MessageKeys|
    ensures |r| == |labels|
  {
    var k := LeadingTexts(vs, Fill(labels));
    seq(|labels|, j requires 0 <= j < |labels| => if j < k then vs[j].s else labels[j])
  }

  /** Whether the loop over the instruction labels ran to its end without raising. */
  predicate AllShown(labels: seq<string>, vs: seq<Value>)
    requires |vs| == |MessageKeys|
  {
    LeadingTexts(vs, Fill(labels)) == Fill(labels)
  }

  /**
   * The labels after `update_ui_texts` at a given hour: with an error label only its
   * text; otherwise the welcome line, then the instruction lines for the labels there
   * are, in order, then the logo, each step done only if every step before it could show
   * its text.
   */
  function Retranslated(l: Labels, hasError: bool, userName: Option<Value>, hour: int,
                        current: Option<string>, translations: map<string, Value>): Labels
  {
    if hasError then
      match LabelText(LanguageManager.TextOf(current, translations, "home.loading_failed", Str(LoadingFailedDefault)))
      case Some(t) => l.(errorText := Some(t))
      case None => l
    else
      match WelcomeLine(LanguageManager.TextOf(current, translations, GreetingKey(hour), Str("")), userName)
      case None => l
      case Some(w) =>
        var vs := MessageValues(current, translations);
        var logo := LanguageManager.TextOf(current, translations, "topbar.app_name", Str(AppNameDefault));
        l.(welcome := w, messages := ShownMessages(l.messages, vs),
           logo := if AllShown(l.messages, vs) && logo.Str? then logo.s else l.logo)
  }

  /** Without an error label and with a welcome line, the retranslated labels in full. */
  lemma RetranslatedLoaded(l: Labels, userName: Option<Value>, hour: int, current: Option<string>,
                           translations: map<string, Value>, w: string)
    requires WelcomeLine(LanguageManager.TextOf(current, translations, GreetingKey(hour), Str("")), userName) == Some(w)
    ensures var vs := MessageValues(current, translations);
      var logo := LanguageManager.TextOf(current, translations, "topbar.app_name", Str(AppNameDefault));
      Retranslated(l, false, userName, hour, current, translations)
        == l.(welcome := w, messages := ShownMessages(l.messages, vs),
              logo := if AllShown(l.messages, vs) && logo.Str? then logo.s else l.logo)
  {
  }

  /** With an error label, a retranslation touches nothing but the error text. */
  lemma ErrorOnly(l: Labels, userName: Option<Value>, hour: int, current: Option<string>, translations: map<string, Value>)
    ensures var r := Retranslated(l, true, userName, hour, current, translations);
      r.welcome == l.welcome && r.messages == l.messages && r.logo == l.logo
  {
  }

  /** With a loaded name the welcome line is the greeting, a full-width comma and the name. */
  lemma GreetingThenName(l: Labels, hour: int, greeting: string, name: string, current: Option<string>, translations: map<string, Value>)
    requires LanguageManager.TextOf(current, translations, GreetingKey(hour), Str("")) == Str(greeting)
    ensures Retranslated(l, false, Some(Str(name)), hour, current, translations).welcome == greeting + "，" + name
  {
  }

  /**
   * When every instruction translates to a string, the labels show the four keys'
   * texts in order, as far as there are labels, and the logo gets its text.
   */
  lemma MessagesInOrder(l: Labels, userName: Option<Value>, hour: int, current: Option<string>, translations: map<string, Value>)
    requires WelcomeLine(LanguageManager.TextOf(current, translations, GreetingKey(hour), Str("")), userName).Some?
    requires forall i :: 0 <= i < |MessageKeys| ==> LanguageManager.TextOf(current, translations, MessageKeys[i], Str("")).Str?
    ensures var r := Retranslated(l, false, userName, hour, current, translations);
      && |r.messages| == |l.messages|
      && (forall i :: 0 <= i < |l.messages| && i < |MessageKeys| ==>
            Str(r.messages[i]) == LanguageManager.TextOf(current, translations, MessageKeys[i], Str("")))
      && (forall i :: |MessageKeys| <= i < |l.messages| ==> r.messages[i] == l.messages[i])
      && r.logo == (match LanguageManager.TextOf(current, translations, "topbar.app_name", Str(AppNameDefault))
                    case Str(s) => s
                    case _ => l.logo)
  {
    var vs := MessageValues(current, translations);
    var m := Fill(l.messages);
    forall j | 0 <= j < m
      ensures vs[j].Str?
    {
      assert vs[j] == LanguageManager.TextOf(current, translations, MessageKeys[j], Str(""));
    }
    assert LeadingTexts(vs, m) == m;
    var r := Retranslated(l, false, userName, hour, current, translations);
    assert r.messages == ShownMessages(l.messages, vs);
    forall i | 0 <= i < |l.messages| && i < |MessageKeys|
      ensures Str(r.messages[i]) == LanguageManager.TextOf(current, translations, MessageKeys[i], Str(""))
    {
      assert i < m;
      assert vs[i] == LanguageManager.TextOf(current, translations, MessageKeys[i], Str(""));
    }
  }

  /** The labels after the instruction loop stopped at `k`, at a value that raises or at the last label. */
  lemma LoopStopped(before: seq<string>, vs: seq<Value>, texts: seq<string>, k: nat)
    requires |vs| == |MessageKeys| && k <= Fill(before) && |texts| == |before|
    requires forall j :: 0 <= j < k ==> vs[j].Str?
    requires k < Fill(before) ==> !vs[k].Str?
    requires forall j :: 0 <= j < |before| ==> texts[j] == if j < k then vs[j].s else before[j]
    ensures texts == ShownMessages(before, vs)
    ensures AllShown(before, vs) <==> k == Fill(before)
  {
    var n := LeadingTexts(vs, Fill(before));
    assert n == k;
  }

  class WelcomeView {
    /** The page's own language manager. */
    const languages: LanguageManager.LanguageManager
    /** `user_name`, once `load_user_info` has set it. */
    var userName: Option<Value>
    /** Error labels created by failed loads; `errorText` is the latest one's text. */
    var errorLabels: nat
    var errorText: Option<string>
    var welcomeText: string
    var messageTexts: seq<string>
    var logoText: string

    /** The page's label texts. */
    function Current(): Labels
      reads this
    {
      Labels(errorText, welcomeText, messageTexts, logoText)
    }

    /**
     * `__init__`: `init_ui` makes four blank instruction labels, then `load_user_info()`
     * runs with the API's answer `user` (None when `current_user()` raised) at `hour`.
     */
    constructor(languages: LanguageManager.LanguageManager, user: Option<Value>, hour: int)
      ensures this.languages == languages
      ensures var ok := user.Some? && user.value.Obj? && "display_name" in user.value.fields;
        && userName == (if ok then Some(user.value.fields["display_name"]) else None)
        && errorLabels == (if ok then 0 else 1)
        && Current() == Retranslated(Labels(None, "", ["", "", "", ""], ""), !ok, userName, hour,
                                     languages.currentLanguage, languages.translations)
    {
      this.languages := languages;
      userName := None;
      errorLabels := 0;
      errorText := None;
      welcomeText := "";
      messageTexts := ["", "", "", ""];
      logoText := "";
      new;
      LoadUserInfo(user, hour);
    }

    /** `update_ui_texts` at the given hour. */
    method UpdateUiTexts(hour: int)
      modifies this`errorText, this`welcomeText, this`messageTexts, this`logoText
      ensures Current() == Retranslated(old(Current()), errorLabels > 0, userName, hour, languages.currentLanguage, languages.translations)
    {
      ghost var l := Current();
      ghost var current, translations := languages.currentLanguage, languages.translations;
      if errorLabels > 0 {
        var failed := languages.GetText("home.loading_failed", Str(LoadingFailedDefault));
        if failed.Str? {
          errorText := Some(failed.s);
        }
        return;
      }
      var key := GreetingKey(hour);
      var greeting := languages.GetText(key, Str(""));
      if userName.Some? {
        welcomeText := PyStr(greeting) + "，" + PyStr(userName.value);
      } else if greeting.Str? {
        welcomeText := greeting.s;
      } else {
        return;
      }
      assert WelcomeLine(greeting, userName) == Some(welcomeText);
      RetranslatedLoaded(l, userName, hour, current, translations, welcomeText);
      var allShown := ShowMessages();
      if !allShown {
        return;
      }
      var logo := languages.GetText("topbar.app_name", Str(AppNameDefault));
      if logo.Str? {
        logoText := logo.s;
      }
    }

    /** The loop over the instruction labels; false when a translation raised and stopped it. */
    method ShowMessages() returns (allShown: bool)
      modifies this`messageTexts
      ensures var vs := MessageValues(languages.currentLanguage, languages.translations);
        messageTexts == ShownMessages(old(messageTexts), vs) && allShown == AllShown(old(messageTexts), vs)
    {
      ghost var vs := MessageValues(languages.currentLanguage, languages.translations);
      ghost var m := Fill(messageTexts);
      ghost var before := messageTexts;
      var i := 0;
      while i < |MessageKeys|
        invariant 0 <= i <= |MessageKeys| && |messageTexts| == |before|
        invariant forall j :: 0 <= j < i && j < m ==> vs[j].Str?
        invariant forall j :: 0 <= j < |before| ==> messageTexts[j] == if j < i && j < m then vs[j].s else before[j]
      {
        if i < |messageTexts| {
          var shown := ShowMessage(i);
          if !shown {
            LoopStopped(before, vs, messageTexts, i);
            allShown := false;
            return;
          }
        }
        i := i + 1;
      }
      LoopStopped(before, vs, messageTexts, m);
      allShown := true;
    }

    /** One pass of that loop: label `i` shows the translation of key `i` when it is a string. */
    method ShowMessage(i: nat) returns (shown: bool)
      requires i < |messageTexts| && i < |MessageKeys|
      modifies this`messageTexts
      ensures var v := MessageValues(languages.currentLanguage, languages.translations)[i];
        && shown == v.Str?
        && messageTexts == if shown then old(messageTexts)[i := v.s] else old(messageTexts)
    {
      var text := languages.GetText(MessageKeys[i], Str(""));
      shown := text.Str?;
      if shown {
        messageTexts := messageTexts[i := text.s];
      }
    }

    /**
     * `load_user_info`: a user dict with a display name stores it; when the API call
     * raised (None) or the answer has no display name, a new blank error label is added.
     * The texts are redone either way.
     */
    method LoadUserInfo(user: Option<Value>, hour: int)
      modifies this`userName, this`errorLabels, this`errorText, this`welcomeText, this`messageTexts, this`logoText
      ensures var ok := user.Some? && user.value.Obj? && "display_name" in user.value.fields;
        && userName == (if ok then Some(user.value.fields["display_name"]) else old(userName))
        && errorLabels == old(errorLabels) + (if ok then 0 else 1)
        && Current() == Retranslated(if ok then old(Current()) else old(Current()).(errorText := None),
                                     errorLabels > 0, userName, hour, languages.currentLanguage, languages.translations)
    {
      if user.Some? && user.value.Obj? && "display_name" in user.value.fields {
        userName := Some(user.value.fields["display_name"]);
      } else {
        errorLabels := errorLabels + 1;
        errorText := None;
      }
      UpdateUiTexts(hour);
    }
  }
}
