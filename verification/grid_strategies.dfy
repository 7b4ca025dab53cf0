/** The grid data acquisition strategies of easytrader/grid_strategies.py.

    A strategy pulls the rows of a trading grid out of the desktop client. Every UI
    operation it performs is recorded, in order, as an `Action` on the trader session
    it is bound to; everything the UI or an external library answers (whether a
    captcha dialog is shown, the recogniser's text, whether the dialog disappeared,
    the clipboard, the save dialog, the tabular decoder) is read from an `Env` value.
    The per-attempt answers (recogniser, dialog, clipboard, save-dialog polls) are
    indexed by attempt or poll number; the decoder, `mktemp` and the export reader
    take the clipboard text, the folder and the path. */
module GridStrategies {
  import opened Text

  datatype Option<T> = None | Some(value: T)

  /** One decoded grid row (`DataFrame.to_dict("records")`): column name to cell. */
  type Row = map<string, string>
  type RowSet = seq<Row>

  /** The windows and controls a strategy touches. */
  datatype Window =
    | MainWindow                                        // trader.main
    | TopWindow                                         // trader.app.top_window()
    | MainChild(controlId: int, className: string)      // main.child_window(control_id, class_name)
    | TopChild(controlId: int, className: string)       // top_window().window(control_id, class_name)
    | TopButton2                                        // top_window().Button2
    | TopEdit1                                          // top_window().Edit1

  /** A control of the top window, as `window(class_name=…, title_re=…)` sees it. */
  datatype Control = Control(className: string, title: string)

  datatype Action =
    | TypeKeys(target: Window, keys: string, setForeground: bool)
    | PostMessage(target: Window, message: int, wParam: int, lParam: int)
    | Wait(ms: nat)                                     // time.sleep / trader.wait
    | LookForChallenge                                  // exists(timeout=1) of the captcha prompt
    | CaptureImage(target: Window, path: string)        // capture_as_image().save(path)
    | TypeEditText(target: Window, text: string)        // trader.type_edit_control_keys
    | SetFocus(target: Window)
    | SendKeys(keys: string)                            // pywinauto.keyboard.send_keys
    | WaitGone(target: Window, ms: nat)                 // wait_not("exists", timeout)
    | Click(target: Window)
    | ReadClipboard                                     // pywinauto.clipboard.GetData()
    | CheckPopDialog                                    // trader.is_exist_pop_dialog()
    | SetEditText(target: Window, text: string)
    | Restore(target: Window)                           // ShowWindow(w, 9)
    | BringToFront(target: Window)                      // SetForegroundWindow(w)

  /** What a foregrounding attempt meets: `minimised` is None when `has_style` raises,
      `callRaises` when ShowWindow / SetForegroundWindow raises. */
  datatype Foreground = Foreground(minimised: Option<bool>, callRaises: bool)

  /** The answers of the UI and of the external libraries during one `get` call. */
  datatype Env = Env(
    topControls: seq<Control>,          // controls of the top window within the exists timeout
    recognize: nat -> string,           // captcha_recognize's text on attempt i (0-based)
    dismissed: nat -> bool,             // the dialog is gone 0.5 s after attempt i's Enter
    clipboard: nat -> Option<string>,   // clipboard read i: its text, or None when it raised
    decode: string -> Option<RowSet>,   // pandas on clipboard text: rows, or None when it raised
    gridForeground: Foreground,
    savePolls: nat -> bool,             // is_exist_pop_dialog() on poll i of the save dialog
    mktemp: Option<string> -> string,   // tempfile.mktemp(suffix=".xls", dir=folder)
    dialogForeground: Foreground,
    popAfterSave: bool,                 // is_exist_pop_dialog() after saving
    readExport: string -> Option<RowSet>) // opening and decoding the exported file, None when it raised

  /** The exceptions a `get` call lets escape. */
  datatype Error =
    | TraderNotSet          // AttributeError: `_trader` is still None
    | FoundUnbound          // UnboundLocalError: `found` read before assignment
    | ExportNotDecoded      // the exported file could not be opened or parsed

  datatype GetResult = Rows(rows: RowSet) | NoRows | Raised(error: Error)

  datatype StrategyKind = Copy | WMCopy | Xls(tmpFolder: Option<string>)

  const GridClassName := "CVirtualGridCtrl"
  const CaptchaPromptClass := "Static"
  const CaptchaPromptTitle := "验证码"
  const CaptchaImage := TopChild(0x965, "Static")
  const CaptchaEdit := TopChild(0x964, "Edit")
  const WmCommand := 0x0111
  const CopyCommandId := 0xE122
  const CaptchaAttempts := 5
  const AnswerLength := 4
  const ClipboardAttempts := 5
  const SavePolls := 10

  /** BaseStrategy._get_grid */
  function GridOf(controlId: int): (w: Window)
    ensures w.MainChild? && w.controlId == controlId && w.className == GridClassName
  {
    MainChild(controlId, GridClassName)
  }

  // ================================================================ counting helpers

  lemma {:induction false} Associate(a: seq<Action>, b: seq<Action>, c: seq<Action>)
    ensures a + b + c == a + (b + c)
  {
  }

  lemma {:induction false} Regroup(a: seq<Action>, b: seq<Action>, c: seq<Action>, d: seq<Action>)
    ensures a + b + c + d == a + (b + (c + d))
  {
  }

  /** Number of occurrences of `a` in `acts`. */
  function Count(acts: seq<Action>, a: Action): nat
  {
    if acts == [] then 0 else (if acts[0] == a then 1 else 0) + Count(acts[1..], a)
  }

  lemma {:induction false} CountAppend(xs: seq<Action>, ys: seq<Action>, a: Action)
    ensures Count(xs + ys, a) == Count(xs, a) + Count(ys, a)
  {
    if xs != [] {
      assert (xs + ys)[1..] == xs[1..] + ys;
      CountAppend(xs[1..], ys, a);
    } else {
      assert xs + ys == ys;
    }
  }

  lemma {:induction false} CountZero(acts: seq<Action>, a: Action)
    ensures Count(acts, a) == 0 <==> a !in acts
  {
    if acts != [] {
      CountZero(acts[1..], a);
      assert acts == [acts[0]] + acts[1..];
    }
  }

  /** The files captured, in order. */
  function Captures(acts: seq<Action>): seq<string>
  {
    if acts == [] then []
    else (if acts[0].CaptureImage? then [acts[0].path] else []) + Captures(acts[1..])
  }

  /** The answers typed into the captcha field, in order. */
  function Submissions(acts: seq<Action>): seq<string>
  {
    if acts == [] then []
    else (if acts[0].TypeEditText? then [acts[0].text] else []) + Submissions(acts[1..])
  }

  lemma {:induction false} CapturesAppend(xs: seq<Action>, ys: seq<Action>)
    ensures Captures(xs + ys) == Captures(xs) + Captures(ys)
    ensures Submissions(xs + ys) == Submissions(xs) + Submissions(ys)
  {
    if xs != [] {
      assert (xs + ys)[1..] == xs[1..] + ys;
      CapturesAppend(xs[1..], ys);
    } else {
      assert xs + ys == ys;
    }
  }


  // ================================================================ the captcha protocol

  /** The captcha branch runs when a `Static` control whose title matches `验证码`
      (re.match: at the start of the title) is on the top window. */
  predicate ChallengeShown(controls: seq<Control>)
    ensures ChallengeShown(controls) ==> controls != []
  {
    exists c :: c in controls && c.className == CaptchaPromptClass && CaptchaPromptTitle <= c.title
  }

  /** The recogniser's answer as the source cleans it (strip, split on whitespace, join
      with ""): every whitespace character is gone, inside the text too. */
  method CleanAnswer(raw: string) returns (answer: string)
    ensures answer == Squeeze(raw)
    ensures NoSpace(answer) && |answer| <= |raw|
    ensures NoSpace(raw) ==> answer == raw
  {
    answer := Join(Split(Strip(raw)));
    SplitJoinStripIsSqueeze(raw);
    SqueezeNoSpace(raw);
  }

  /** File the image is captured to while the counter is `count`. */
  function CapturePath(count: nat): string
  {
    "tmp-" + NatToString(count) + ".png"
  }

  /** What one attempt meets: the recogniser's answer once cleaned, and whether the
      dialog was gone 0.5 s after Enter. */
  datatype Reply = Reply(answer: string, gone: bool)

  /** The replies of the five attempts; attempt i (0-based) runs with counter 5 - i. */
  function Replies(env: Env): (rs: seq<Reply>)
    ensures |rs| == CaptchaAttempts
  {
    seq(CaptchaAttempts, i requires 0 <= i => Reply(Squeeze(env.recognize(i)), env.dismissed(i)))
  }

  /** An attempt resolves the challenge: its answer has the right length and the dialog
      disappears after Enter. */
  predicate Solves(r: Reply)
  {
    |r.answer| == AnswerLength && r.gone
  }

  /** The index of the first resolving attempt from `from` on, or |rs| when none does. */
  function FirstSolved(rs: seq<Reply>, from: nat): (k: nat)
    requires from <= |rs|
    decreases |rs| - from
    ensures from <= k <= |rs|
    ensures k < |rs| ==> Solves(rs[k])
    ensures forall j :: from <= j < k ==> !Solves(rs[j])
  {
    if from == |rs| || Solves(rs[from]) then from else FirstSolved(rs, from + 1)
  }

  /** What follows the capture: an answer of `AnswerLength` characters is typed into the
      captcha field, the top window focused, Enter pressed and the dialog given 0.5 s to
      go; an answer of any other length is not submitted. */
  function SubmitActions(answer: string): seq<Action>
  {
    if |answer| == AnswerLength
    then [TypeEditText(CaptchaEdit, answer), SetFocus(TopWindow), SendKeys("{ENTER}"), WaitGone(TopWindow, 500)]
    else []
  }

  /** One pass of the loop body with counter `count`: capture, recognise, maybe submit. */
  function AttemptActions(r: Reply, count: nat): seq<Action>
  {
    [CaptureImage(CaptchaImage, CapturePath(count))] + SubmitActions(r.answer)
  }

  /** After an unresolved attempt: click the image for a new one and wait 0.1 s. */
  const Refresh: seq<Action> := [Click(CaptchaImage), Wait(100)]

  datatype Rounds = Rounds(found: bool, actions: seq<Action>)

  /** The captcha loop run from counter value `count` down to 1; attempt index 5 - count. */
  function CaptchaRounds(rs: seq<Reply>, count: nat): (r: Rounds)
    requires |rs| == CaptchaAttempts && count <= CaptchaAttempts
    ensures r.found ==> count > 0
    ensures r.actions == [] <==> count == 0
    decreases count
  {
    if count == 0 then Rounds(false, [])
    else if Solves(rs[CaptchaAttempts - count]) then Rounds(true, AttemptActions(rs[CaptchaAttempts - count], count))
    else
      var rest := CaptchaRounds(rs, count - 1);
      Rounds(rest.found, AttemptActions(rs[CaptchaAttempts - count], count) + (Refresh + rest.actions))
  }

  /** The attempts the loop makes from counter `count`: up to and including the first
      resolving one, or all that remain. */
  function AttemptsMade(rs: seq<Reply>, count: nat): (n: nat)
    requires |rs| == CaptchaAttempts && count <= CaptchaAttempts
    ensures n <= count
  {
    var k := FirstSolved(rs, CaptchaAttempts - count);
    if k < CaptchaAttempts then k + 1 - (CaptchaAttempts - count) else count
  }

  /** The files captured by `n` attempts made from counter `count` on. */
  function CaptureSeries(count: nat, n: nat): (r: seq<string>)
    requires n <= count
    ensures |r| == n
    ensures forall j :: 0 <= j < n ==> r[j] == CapturePath(count - j)
  {
    if n == 0 then [] else [CapturePath(count)] + CaptureSeries(count - 1, n - 1)
  }

  /** A series of captures starts with the current counter's file. */
  lemma {:induction false} SeriesStep(count: nat, prev: nat, n: nat, m: nat)
    requires prev + 1 == count && m + 1 == n && n <= count
    ensures CaptureSeries(count, n) == [CapturePath(count)] + CaptureSeries(prev, m)
  {
  }

  /** The answer an attempt types: its cleaned text when that has 4 characters, else none. */
  function Answered(r: Reply): seq<string>
  {
    if |r.answer| == AnswerLength then [r.answer] else []
  }

  /** The 4-character answers of attempts i .. n-1, in order. */
  function FourCharAnswers(rs: seq<Reply>, i: nat, n: nat): (r: seq<string>)
    requires i <= n <= |rs|
    decreases n - i
    ensures forall k :: 0 <= k < |r| ==> |r[k]| == AnswerLength
    ensures |r| <= n - i
  {
    if i == n then [] else Answered(rs[i]) + FourCharAnswers(rs, i + 1, n)
  }

  lemma {:induction false} NothingCaptured(acts: seq<Action>)
    requires forall j :: 0 <= j < |acts| ==> !acts[j].CaptureImage? && !acts[j].TypeEditText?
    ensures Captures(acts) == [] && Submissions(acts) == []
  {
    if acts != [] {
      NothingCaptured(acts[1..]);
    }
  }

  lemma {:induction false} SubmitFacts(answer: string)
    ensures Captures(SubmitActions(answer)) == []
    ensures Submissions(SubmitActions(answer)) == if |answer| == AnswerLength then [answer] else []
    ensures Count(SubmitActions(answer), SendKeys("{ENTER}")) == if |answer| == AnswerLength then 1 else 0
    ensures Click(CaptchaImage) !in SubmitActions(answer) && Click(TopButton2) !in SubmitActions(answer)
  {
    var s := SubmitActions(answer);
    if |answer| == AnswerLength {
      var tail := s[1..];
      NothingCaptured(tail);
      assert s == [s[0]] + tail;
      CapturesAppend([s[0]], tail);
      assert s == s[..2] + s[2..];
      CountAppend(s[..2], s[2..], SendKeys("{ENTER}"));
      CountZero(s[..2], SendKeys("{ENTER}"));
      CountZero(s[2..][1..], SendKeys("{ENTER}"));
    }
  }

  /** An attempt captures one image, and types its answer only when it has 4 characters. */
  lemma {:induction false} AttemptRecords(r: Reply, count: nat)
    ensures Captures(AttemptActions(r, count)) == [CapturePath(count)]
    ensures Submissions(AttemptActions(r, count)) == Answered(r)
  {
    SubmitFacts(r.answer);
    CapturesAppend([CaptureImage(CaptchaImage, CapturePath(count))], SubmitActions(r.answer));
  }

  /** An attempt presses Enter once when it submits, and never clicks the image or Cancel. */
  lemma {:induction false} AttemptFacts(r: Reply, count: nat)
    ensures Count(AttemptActions(r, count), SendKeys("{ENTER}")) == |Answered(r)|
    ensures Count(AttemptActions(r, count), Click(CaptchaImage)) == 0
    ensures Count(AttemptActions(r, count), Click(TopButton2)) == 0
  {
    var head := [CaptureImage(CaptchaImage, CapturePath(count))];
    var s := SubmitActions(r.answer);
    SubmitFacts(r.answer);
    CountAppend(head, s, SendKeys("{ENTER}"));
    CountAppend(head, s, Click(CaptchaImage));
    CountAppend(head, s, Click(TopButton2));
    CountZero(s, Click(CaptchaImage));
    CountZero(s, Click(TopButton2));
  }

  /** The refresh adds nothing to the captures and answers that follow it. */
  lemma {:induction false} RefreshRecords(rest: seq<Action>)
    ensures Captures(Refresh + rest) == Captures(rest) && Submissions(Refresh + rest) == Submissions(rest)
  {
    NothingCaptured(Refresh);
    CapturesAppend(Refresh, rest);
  }

  lemma {:induction false} RefreshFacts()
    ensures Count(Refresh, Click(CaptchaImage)) == 1
    ensures Count(Refresh, SendKeys("{ENTER}")) == 0 && Count(Refresh, Click(TopButton2)) == 0
  {
    CountZero(Refresh[1..], Click(CaptchaImage));
    CountZero(Refresh, SendKeys("{ENTER}"));
    CountZero(Refresh, Click(TopButton2));
  }

  /** An attempt that does not resolve the challenge moves the first resolving one no
      earlier and adds one to the attempts made. `prev` is the counter of the next pass. */
  lemma {:induction false} UnsolvedStep(rs: seq<Reply>, count: nat, prev: nat)
    requires |rs| == CaptchaAttempts && 1 <= count <= CaptchaAttempts && prev + 1 == count
    requires !Solves(rs[CaptchaAttempts - count])
    ensures FirstSolved(rs, CaptchaAttempts - count) == FirstSolved(rs, CaptchaAttempts - prev)
    ensures AttemptsMade(rs, count) == AttemptsMade(rs, prev) + 1
    ensures CaptchaRounds(rs, count).found == CaptchaRounds(rs, prev).found
  {
  }

  /** The loop stops with `found` exactly when some attempt from `count` on resolves. */
  lemma {:induction false} RoundsFound(rs: seq<Reply>, count: nat)
    requires |rs| == CaptchaAttempts && count <= CaptchaAttempts
    ensures CaptchaRounds(rs, count).found == (FirstSolved(rs, CaptchaAttempts - count) < CaptchaAttempts)
  {
    if count > 0 && !Solves(rs[CaptchaAttempts - count]) {
      var prev := count - 1;
      UnsolvedStep(rs, count, prev);
      RoundsFound(rs, prev);
    }
  }

  /** What an unresolved attempt and its refresh add in front of the captures of the
      later rounds: its own capture. */
  lemma {:induction false} UnsolvedCaptures(rs: seq<Reply>, count: nat, prev: nat)
    requires |rs| == CaptchaAttempts && 1 <= count <= CaptchaAttempts && prev + 1 == count
    requires !Solves(rs[CaptchaAttempts - count])
    ensures Captures(CaptchaRounds(rs, count).actions)
            == [CapturePath(count)] + Captures(CaptchaRounds(rs, prev).actions)
  {
    var attempt := AttemptActions(rs[CaptchaAttempts - count], count);
    var rest := CaptchaRounds(rs, prev).actions;
    assert CaptchaRounds(rs, count).actions == attempt + (Refresh + rest);
    AttemptRecords(rs[CaptchaAttempts - count], count);
    RefreshRecords(rest);
    CapturesAppend(attempt, Refresh + rest);
  }

  /** What an unresolved attempt and its refresh add in front of the answers of the later
      rounds: its own answer when that has 4 characters. */
  lemma {:induction false} UnsolvedSubmissions(rs: seq<Reply>, count: nat, prev: nat)
    requires |rs| == CaptchaAttempts && 1 <= count <= CaptchaAttempts && prev + 1 == count
    requires !Solves(rs[CaptchaAttempts - count])
    ensures Submissions(CaptchaRounds(rs, count).actions)
            == Answered(rs[CaptchaAttempts - count]) + Submissions(CaptchaRounds(rs, prev).actions)
  {
    var attempt := AttemptActions(rs[CaptchaAttempts - count], count);
    var rest := CaptchaRounds(rs, prev).actions;
    assert CaptchaRounds(rs, count).actions == attempt + (Refresh + rest);
    AttemptRecords(rs[CaptchaAttempts - count], count);
    RefreshRecords(rest);
    CapturesAppend(attempt, Refresh + rest);
  }

  /** A resolving attempt is the last one: its capture and its (4-character) answer. */
  lemma {:induction false} SolvedRound(rs: seq<Reply>, count: nat)
    requires |rs| == CaptchaAttempts && 1 <= count <= CaptchaAttempts && Solves(rs[CaptchaAttempts - count])
    ensures AttemptsMade(rs, count) == 1
    ensures Captures(CaptchaRounds(rs, count).actions) == CaptureSeries(count, 1)
    ensures Submissions(CaptchaRounds(rs, count).actions)
            == FourCharAnswers(rs, CaptchaAttempts - count, CaptchaAttempts - count + 1)
  {
    AttemptRecords(rs[CaptchaAttempts - count], count);
    assert FourCharAnswers(rs, CaptchaAttempts - count + 1, CaptchaAttempts - count + 1) == [];
  }

  /** The 4-character answers from an unresolved attempt on: its own, then the later ones. */
  lemma {:induction false} UnsolvedAnswers(rs: seq<Reply>, count: nat, prev: nat)
    requires |rs| == CaptchaAttempts && 1 <= count <= CaptchaAttempts && prev + 1 == count
    requires !Solves(rs[CaptchaAttempts - count])
    ensures FourCharAnswers(rs, CaptchaAttempts - count, CaptchaAttempts - count + AttemptsMade(rs, count))
            == Answered(rs[CaptchaAttempts - count])
               + FourCharAnswers(rs, CaptchaAttempts - prev, CaptchaAttempts - prev + AttemptsMade(rs, prev))
  {
    UnsolvedStep(rs, count, prev);
  }

  /** The same, for the counted clicks and keys. */
  lemma {:induction false} UnsolvedRoundCounts(rs: seq<Reply>, count: nat, prev: nat, x: Action)
    requires |rs| == CaptchaAttempts && 1 <= count <= CaptchaAttempts && prev + 1 == count
    requires !Solves(rs[CaptchaAttempts - count])
    ensures Count(CaptchaRounds(rs, count).actions, x)
            == Count(AttemptActions(rs[CaptchaAttempts - count], count), x) + Count(Refresh, x)
               + Count(CaptchaRounds(rs, prev).actions, x)
  {
    var attempt := AttemptActions(rs[CaptchaAttempts - count], count);
    var rest := CaptchaRounds(rs, prev).actions;
    assert CaptchaRounds(rs, count).actions == attempt + (Refresh + rest);
    CountAppend(attempt, Refresh + rest, x);
    CountAppend(Refresh, rest, x);
  }

  /** One capture per attempt made, named tmp-count.png downwards. */
  lemma {:induction false} RoundsCaptures(rs: seq<Reply>, count: nat)
    requires |rs| == CaptchaAttempts && count <= CaptchaAttempts
    ensures Captures(CaptchaRounds(rs, count).actions) == CaptureSeries(count, AttemptsMade(rs, count))
    decreases count, 1
  {
    if count > 0 {
      if Solves(rs[CaptchaAttempts - count]) {
        SolvedRound(rs, count);
      } else {
        CapturesStep(rs, count, count - 1);
      }
    }
  }

  /** The induction step: an unresolved attempt puts its capture in front of those of
      the later rounds. */
  lemma {:induction false} CapturesStep(rs: seq<Reply>, count: nat, prev: nat)
    requires |rs| == CaptchaAttempts && 1 <= count <= CaptchaAttempts && prev + 1 == count
    requires !Solves(rs[CaptchaAttempts - count])
    ensures Captures(CaptchaRounds(rs, count).actions) == CaptureSeries(count, AttemptsMade(rs, count))
    decreases count, 0
  {
    RoundsCaptures(rs, prev);
    UnsolvedCaptures(rs, count, prev);
    UnsolvedStep(rs, count, prev);
    SeriesStep(count, prev, AttemptsMade(rs, count), AttemptsMade(rs, prev));
  }

  /** One image refresh per attempt that did not resolve the challenge. */
  lemma {:induction false} RoundsRefreshes(rs: seq<Reply>, count: nat)
    requires |rs| == CaptchaAttempts && count <= CaptchaAttempts
    ensures Count(CaptchaRounds(rs, count).actions, Click(CaptchaImage))
            == FirstSolved(rs, CaptchaAttempts - count) - (CaptchaAttempts - count)
    decreases count, 1
  {
    if count > 0 {
      if Solves(rs[CaptchaAttempts - count]) {
        AttemptFacts(rs[CaptchaAttempts - count], count);
      } else {
        RefreshesStep(rs, count, count - 1);
      }
    }
  }

  /** The induction step: an unresolved attempt adds one refresh to those of the later
      rounds. */
  lemma {:induction false} RefreshesStep(rs: seq<Reply>, count: nat, prev: nat)
    requires |rs| == CaptchaAttempts && 1 <= count <= CaptchaAttempts && prev + 1 == count
    requires !Solves(rs[CaptchaAttempts - count])
    ensures Count(CaptchaRounds(rs, count).actions, Click(CaptchaImage))
            == FirstSolved(rs, CaptchaAttempts - count) - (CaptchaAttempts - count)
    decreases count, 0
  {
    RoundsRefreshes(rs, prev);
    AttemptFacts(rs[CaptchaAttempts - count], count);
    RefreshFacts();
    UnsolvedRoundCounts(rs, count, prev, Click(CaptchaImage));
    UnsolvedStep(rs, count, prev);
  }

  /** Exactly the 4-character answers of the attempts made are typed, in order. */
  lemma {:induction false} RoundsSubmissions(rs: seq<Reply>, count: nat)
    requires |rs| == CaptchaAttempts && count <= CaptchaAttempts
    ensures Submissions(CaptchaRounds(rs, count).actions)
            == FourCharAnswers(rs, CaptchaAttempts - count, CaptchaAttempts - count + AttemptsMade(rs, count))
    decreases count, 1
  {
    if count > 0 {
      if Solves(rs[CaptchaAttempts - count]) {
        SolvedRound(rs, count);
      } else {
        SubmissionsStep(rs, count, count - 1);
      }
    }
  }

  /** The induction step: an unresolved attempt puts its own answer in front of those
      of the later rounds. */
  lemma {:induction false} SubmissionsStep(rs: seq<Reply>, count: nat, prev: nat)
    requires |rs| == CaptchaAttempts && 1 <= count <= CaptchaAttempts && prev + 1 == count
    requires !Solves(rs[CaptchaAttempts - count])
    ensures Submissions(CaptchaRounds(rs, count).actions)
            == FourCharAnswers(rs, CaptchaAttempts - count, CaptchaAttempts - count + AttemptsMade(rs, count))
    decreases count, 0
  {
    RoundsSubmissions(rs, prev);
    UnsolvedSubmissions(rs, count, prev);
    UnsolvedAnswers(rs, count, prev);
  }

  /** Each submitted answer is followed by exactly one Enter. */
  lemma {:induction false} RoundsEnters(rs: seq<Reply>, count: nat)
    requires |rs| == CaptchaAttempts && count <= CaptchaAttempts
    ensures Count(CaptchaRounds(rs, count).actions, SendKeys("{ENTER}")) == |Submissions(CaptchaRounds(rs, count).actions)|
    decreases count, 1
  {
    if count > 0 {
      if Solves(rs[CaptchaAttempts - count]) {
        AttemptFacts(rs[CaptchaAttempts - count], count);
        AttemptRecords(rs[CaptchaAttempts - count], count);
      } else {
        EntersStep(rs, count, count - 1);
      }
    }
  }

  /** The induction step: an unresolved attempt's Enter goes with its own answer. */
  lemma {:induction false} EntersStep(rs: seq<Reply>, count: nat, prev: nat)
    requires |rs| == CaptchaAttempts && 1 <= count <= CaptchaAttempts && prev + 1 == count
    requires !Solves(rs[CaptchaAttempts - count])
    ensures Count(CaptchaRounds(rs, count).actions, SendKeys("{ENTER}")) == |Submissions(CaptchaRounds(rs, count).actions)|
    decreases count, 0
  {
    RoundsEnters(rs, prev);
    AttemptFacts(rs[CaptchaAttempts - count], count);
    RefreshFacts();
    UnsolvedRoundCounts(rs, count, prev, SendKeys("{ENTER}"));
    UnsolvedSubmissions(rs, count, prev);
  }

  /** The loop itself never clicks Cancel. */
  lemma {:induction false} RoundsNoCancel(rs: seq<Reply>, count: nat)
    requires |rs| == CaptchaAttempts && count <= CaptchaAttempts
    ensures Count(CaptchaRounds(rs, count).actions, Click(TopButton2)) == 0
  {
    if count > 0 {
      AttemptFacts(rs[CaptchaAttempts - count], count);
      if !Solves(rs[CaptchaAttempts - count]) {
        var prev := count - 1;
        RefreshFacts();
        UnsolvedRoundCounts(rs, count, prev, Click(TopButton2));
        RoundsNoCancel(rs, prev);
      }
    }
  }

  lemma {:induction false} CapturePathNames()
    ensures CapturePath(5) == "tmp-5.png" && CapturePath(4) == "tmp-4.png" && CapturePath(3) == "tmp-3.png"
    ensures CapturePath(2) == "tmp-2.png" && CapturePath(1) == "tmp-1.png"
  {
  }

  /** The captures of `n` attempts from the start are the first `n` file names. */
  lemma {:induction false} SeriesNames(n: nat)
    requires n <= CaptchaAttempts
    ensures CaptureSeries(CaptchaAttempts, n) == ["tmp-5.png", "tmp-4.png", "tmp-3.png", "tmp-2.png", "tmp-1.png"][..n]
  {
    var names := ["tmp-5.png", "tmp-4.png", "tmp-3.png", "tmp-2.png", "tmp-1.png"];
    CapturePathNames();
    forall j | 0 <= j < n
      ensures CaptureSeries(CaptchaAttempts, n)[j] == names[j]
    {
      assert CaptureSeries(CaptchaAttempts, n)[j] == CapturePath(CaptchaAttempts - j);
    }
  }

  /** At most 5 capture/recognise cycles, captured as tmp-5.png down to tmp-1.png. */
  lemma {:induction false} CaptchaFiles(rs: seq<Reply>)
    requires |rs| == CaptchaAttempts
    ensures var caps := Captures(CaptchaRounds(rs, CaptchaAttempts).actions);
            && |caps| == AttemptsMade(rs, CaptchaAttempts) <= CaptchaAttempts
            && caps == ["tmp-5.png", "tmp-4.png", "tmp-3.png", "tmp-2.png", "tmp-1.png"][..|caps|]
  {
    RoundsCaptures(rs, CaptchaAttempts);
    SeriesNames(AttemptsMade(rs, CaptchaAttempts));
  }

  /** The loop resolves the challenge exactly when one of the five attempts does; success
      on attempt k (1-based) leaves k captures and k - 1 refresh clicks, failure 5 of each. */
  lemma {:induction false} CaptchaLoopOutcome(rs: seq<Reply>)
    requires |rs| == CaptchaAttempts
    ensures var r := CaptchaRounds(rs, CaptchaAttempts);
            var made := |Captures(r.actions)|;
            && r.found == (exists i :: 0 <= i < CaptchaAttempts && Solves(rs[i]))
            && made <= CaptchaAttempts
            && (r.found ==> 1 <= made && Count(r.actions, Click(CaptchaImage)) == made - 1 && Solves(rs[made - 1])
                            && forall j :: 0 <= j < made - 1 ==> !Solves(rs[j]))
            && (!r.found ==> Count(r.actions, Click(CaptchaImage)) == CaptchaAttempts && made == CaptchaAttempts)
  {
    RoundsCaptures(rs, CaptchaAttempts);
    RoundsRefreshes(rs, CaptchaAttempts);
    RoundsFound(rs, CaptchaAttempts);
    CaptchaFiles(rs);
    var k := FirstSolved(rs, 0);
    if exists i :: 0 <= i < CaptchaAttempts && Solves(rs[i]) {
      var i :| 0 <= i < CaptchaAttempts && Solves(rs[i]);
      assert k <= i;
    }
  }

  lemma {:induction false} NoFourCharAnswers(rs: seq<Reply>, i: nat, n: nat)
    requires i <= n <= |rs|
    requires forall j :: i <= j < n ==> |rs[j].answer| != AnswerLength
    ensures FourCharAnswers(rs, i, n) == []
    decreases n - i
  {
    if i < n {
      NoFourCharAnswers(rs, i + 1, n);
    }
  }

  /** A recogniser that never yields 4 characters: nothing is typed or submitted and
      all 5 attempts are used, ending unresolved. */
  lemma {:induction false} WrongLengthAnswersExhaustAttempts(rs: seq<Reply>)
    requires |rs| == CaptchaAttempts
    requires forall i :: 0 <= i < CaptchaAttempts ==> |rs[i].answer| != AnswerLength
    ensures !CaptchaRounds(rs, CaptchaAttempts).found
    ensures |Captures(CaptchaRounds(rs, CaptchaAttempts).actions)| == CaptchaAttempts
    ensures Submissions(CaptchaRounds(rs, CaptchaAttempts).actions) == []
    ensures Count(CaptchaRounds(rs, CaptchaAttempts).actions, SendKeys("{ENTER}")) == 0
  {
    CaptchaLoopOutcome(rs);
    RoundsSubmissions(rs, CaptchaAttempts);
    RoundsEnters(rs, CaptchaAttempts);
    NoFourCharAnswers(rs, 0, CaptchaAttempts);
  }

  /** A challenge resolved on the third answer: 3 captures and 2 refresh clicks. */
  lemma {:induction false} ResolvedOnThirdAttempt(rs: seq<Reply>)
    requires |rs| == CaptchaAttempts && !Solves(rs[0]) && !Solves(rs[1]) && Solves(rs[2])
    ensures CaptchaRounds(rs, CaptchaAttempts).found
    ensures Captures(CaptchaRounds(rs, CaptchaAttempts).actions) == ["tmp-5.png", "tmp-4.png", "tmp-3.png"]
    ensures Count(CaptchaRounds(rs, CaptchaAttempts).actions, Click(CaptchaImage)) == 2
  {
    assert FirstSolved(rs, 0) == 2;
    RoundsFound(rs, CaptchaAttempts);
    RoundsRefreshes(rs, CaptchaAttempts);
    CaptchaFiles(rs);
  }

  /** The captcha loop followed by a click on Cancel (Button2) when it ended unresolved. */
  function ChallengeActions(rs: seq<Reply>): seq<Action>
    requires |rs| == CaptchaAttempts
  {
    var r := CaptchaRounds(rs, CaptchaAttempts);
    r.actions + (if r.found then [] else [Click(TopButton2)])
  }

  datatype Gate = Gate(actions: seq<Action>, raised: bool)

  /** Copy._get_clipboard_data up to the clipboard read. With the flag set and no
      challenge, `found` was never assigned and `if not found` raises. */
  function CaptchaGate(needCaptchaReg: bool, env: Env): (g: Gate)
    ensures g.raised ==> needCaptchaReg && g.actions == [LookForChallenge]
    ensures g.actions == [] <==> !needCaptchaReg
  {
    if !needCaptchaReg then Gate([], false)
    else if !ChallengeShown(env.topControls) then Gate([LookForChallenge], true)
    else
      Gate([LookForChallenge, Wait(100)] + ChallengeActions(Replies(env)), false)
  }

  /** The challenge is looked for only when the flag is set, and the call raises exactly
      when the flag is set and no prompt is shown. */
  lemma {:induction false} CaptchaGateRaises(needCaptchaReg: bool, env: Env)
    ensures LookForChallenge in CaptchaGate(needCaptchaReg, env).actions <==> needCaptchaReg
    ensures CaptchaGate(needCaptchaReg, env).raised <==> needCaptchaReg && !ChallengeShown(env.topControls)
  {
    if needCaptchaReg {
      assert CaptchaGate(needCaptchaReg, env).actions[0] == LookForChallenge;
    }
  }

  /** Answering the challenge always captures at least one image. */
  lemma {:induction false} ChallengeCaptures(rs: seq<Reply>)
    requires |rs| == CaptchaAttempts
    ensures Captures(ChallengeActions(rs)) != []
  {
    var r := CaptchaRounds(rs, CaptchaAttempts);
    var cancel: seq<Action> := if r.found then [] else [Click(TopButton2)];
    assert Captures(r.actions) != [] by {
      CaptchaLoopOutcome(rs);
    }
    CapturesAppend(r.actions, cancel);
    NothingCaptured(cancel);
  }

  /** Images are captured exactly when the flag is set and the prompt is on the top
      window. */
  lemma {:induction false} CaptchaGateCaptures(needCaptchaReg: bool, env: Env)
    ensures Captures(CaptchaGate(needCaptchaReg, env).actions) != [] <==> needCaptchaReg && ChallengeShown(env.topControls)
  {
    var g := CaptchaGate(needCaptchaReg, env);
    if needCaptchaReg && ChallengeShown(env.topControls) {
      var head: seq<Action> := [LookForChallenge, Wait(100)];
      ChallengeCaptures(Replies(env));
      CapturesAppend(head, ChallengeActions(Replies(env)));
      NothingCaptured(head);
    } else if needCaptchaReg {
      NothingCaptured(g.actions);
    }
  }

  /** After the five rounds, Cancel is clicked once if no reply resolved the challenge,
      and not at all otherwise. */
  lemma {:induction false} ChallengeCancel(rs: seq<Reply>)
    requires |rs| == CaptchaAttempts
    ensures Count(ChallengeActions(rs), Click(TopButton2)) ==
              if exists i :: 0 <= i < CaptchaAttempts && Solves(rs[i]) then 0 else 1
  {
    var r := CaptchaRounds(rs, CaptchaAttempts);
    var cancel: seq<Action> := if r.found then [] else [Click(TopButton2)];
    CountAppend(r.actions, cancel, Click(TopButton2));
    RoundsNoCancel(rs, CaptchaAttempts);
    CaptchaLoopOutcome(rs);
  }

  /** With the prompt shown, the gate's Cancel clicks are those of the challenge. */
  lemma {:induction false} ShownGateCancels(needCaptchaReg: bool, env: Env)
    requires needCaptchaReg && ChallengeShown(env.topControls)
    ensures Count(CaptchaGate(needCaptchaReg, env).actions, Click(TopButton2))
            == Count(ChallengeActions(Replies(env)), Click(TopButton2))
  {
    var head: seq<Action> := [LookForChallenge, Wait(100)];
    CountAppend(head, ChallengeActions(Replies(env)), Click(TopButton2));
    CountZero(head, Click(TopButton2));
  }

  /** Without the flag or without the prompt, the gate never clicks Cancel. */
  lemma {:induction false} HiddenGateCancels(needCaptchaReg: bool, env: Env)
    requires !(needCaptchaReg && ChallengeShown(env.topControls))
    ensures Count(CaptchaGate(needCaptchaReg, env).actions, Click(TopButton2)) == 0
  {
    CountZero(CaptchaGate(needCaptchaReg, env).actions, Click(TopButton2));
  }

  /** Cancel (Button2) is clicked at most once, and exactly when the prompt was shown and
      none of the five attempts resolved it. */
  lemma {:induction false} CaptchaGateCancel(needCaptchaReg: bool, env: Env)
    ensures Count(CaptchaGate(needCaptchaReg, env).actions, Click(TopButton2)) <= 1
    ensures Count(CaptchaGate(needCaptchaReg, env).actions, Click(TopButton2)) == 1 <==>
              needCaptchaReg && ChallengeShown(env.topControls)
              && forall i :: 0 <= i < CaptchaAttempts ==> !Solves(Replies(env)[i])
  {
    if needCaptchaReg && ChallengeShown(env.topControls) {
      ShownGateCancels(needCaptchaReg, env);
      ChallengeCancel(Replies(env));
    } else {
      HiddenGateCancels(needCaptchaReg, env);
    }
  }

  // ================================================================ clipboard read

  /** The results of the five clipboard reads: the text, or None when GetData raised. */
  function ClipboardResults(env: Env): (results: seq<Option<string>>)
    ensures |results| == ClipboardAttempts
  {
    seq(ClipboardAttempts, i requires 0 <= i => env.clipboard(i))
  }

  /** The index of the first read from `from` on that succeeds, or |results| when none does. */
  function FirstRead(results: seq<Option<string>>, from: nat): (k: nat)
    requires from <= |results|
    decreases |results| - from
    ensures from <= k <= |results|
    ensures k < |results| ==> results[k].Some?
    ensures forall j :: from <= j < k ==> results[j].None?
  {
    if from == |results| || results[from].Some? then from else FirstRead(results, from + 1)
  }

  datatype Reads = Reads(text: Option<string>, actions: seq<Action>)

  /** The clipboard read loop from counter `count` down; read index 5 - count. */
  function ClipboardReads(results: seq<Option<string>>, count: nat): (r: Reads)
    requires |results| == ClipboardAttempts && count <= ClipboardAttempts
    ensures r.text.Some? ==> count > 0
    ensures r.actions == [] <==> count == 0
    decreases count
  {
    if count == 0 then Reads(None, [])
    else if results[ClipboardAttempts - count].Some? then Reads(results[ClipboardAttempts - count], [ReadClipboard])
    else
      var rest := ClipboardReads(results, count - 1);
      Reads(rest.text, [ReadClipboard] + rest.actions)
  }

  /** Reads stop at the first one that succeeds and return its text; after the last
      failure the result is None; nothing but reads is done. */
  lemma {:induction false} ClipboardReadsShape(results: seq<Option<string>>, count: nat)
    requires |results| == ClipboardAttempts && count <= ClipboardAttempts
    ensures var from := ClipboardAttempts - count;
            var k := FirstRead(results, from);
            && ClipboardReads(results, count).text == (if k < ClipboardAttempts then results[k] else None)
            && ClipboardReads(results, count).actions == seq(if k < ClipboardAttempts then k + 1 - from else count, _ => ReadClipboard)
    decreases count
  {
    if count > 0 && results[ClipboardAttempts - count].None? {
      ClipboardReadsShape(results, count - 1);
    }
  }

  /** At most five reads, at least one; the first text read is returned, and None only
      when all five reads raised, after five reads. */
  lemma {:induction false} ClipboardReadBounded(results: seq<Option<string>>)
    requires |results| == ClipboardAttempts
    ensures var r := ClipboardReads(results, ClipboardAttempts);
            && 1 <= |r.actions| <= ClipboardAttempts
            && (forall j :: 0 <= j < |r.actions| ==> r.actions[j] == ReadClipboard)
            && (r.text.None? <==> forall i :: 0 <= i < ClipboardAttempts ==> results[i].None?)
            && (r.text.Some? ==> r.text == results[|r.actions| - 1])
            && (forall j :: 0 <= j < |r.actions| - 1 ==> results[j].None?)
            && (r.text.None? ==> |r.actions| == ClipboardAttempts)
  {
    ClipboardReadsShape(results, ClipboardAttempts);
  }

  datatype Fetched = Fetched(actions: seq<Action>, raised: bool, text: Option<string>)

  /** Copy._get_clipboard_data */
  function ClipboardData(needCaptchaReg: bool, env: Env): Fetched
  {
    var g := CaptchaGate(needCaptchaReg, env);
    if g.raised then Fetched(g.actions, true, None)
    else
      var r := ClipboardReads(ClipboardResults(env), ClipboardAttempts);
      Fetched(g.actions + r.actions, false, r.text)
  }

  // ================================================================ Copy and WMCopy

  /** `io.StringIO(data)`: a missing payload reads as the empty text. */
  function PayloadText(data: Option<string>): string
  {
    if data.Some? then data.value else ""
  }

  datatype Outcome = Outcome(actions: seq<Action>, result: GetResult, needCaptchaReg: bool)

  /** How the copy is triggered: Ctrl+A Ctrl+C for Copy, WM_COMMAND 0xE122 for WMCopy. */
  function CopyTrigger(viaMessage: bool, controlId: int): seq<Action>
  {
    if viaMessage then [PostMessage(GridOf(controlId), WmCommand, CopyCommandId, 0), Wait(100)]
    else [TypeKeys(GridOf(controlId), "^A^C", false)]
  }

  /** Copy.get / WMCopy.get with a bound trader, starting with the class flag `needCaptchaReg`. */
  function CopyOutcome(needCaptchaReg: bool, viaMessage: bool, controlId: int, env: Env): (o: Outcome)
    ensures needCaptchaReg ==> o.needCaptchaReg
    ensures CopyTrigger(viaMessage, controlId) <= o.actions
  {
    var f := ClipboardData(needCaptchaReg, env);
    var acts := CopyTrigger(viaMessage, controlId) + f.actions;
    if f.raised then Outcome(acts, Raised(FoundUnbound), needCaptchaReg)
    else
      var rows := env.decode(PayloadText(f.text));
      if rows.None? then Outcome(acts, NoRows, true)
      else Outcome(acts, Rows(rows.value), needCaptchaReg)
  }

  /** Copy._format_grid_data: a decode failure sets the flag and yields no rows; a success
      returns the decoded rows and leaves the flag alone; no path clears the flag. */
  lemma {:induction false} CopyFlagRule(needCaptchaReg: bool, viaMessage: bool, controlId: int, env: Env)
    ensures var o := CopyOutcome(needCaptchaReg, viaMessage, controlId, env);
            && (needCaptchaReg ==> o.needCaptchaReg)
            && (o.result == NoRows ==> o.needCaptchaReg)
            && (o.result.Rows? ==> o.needCaptchaReg == needCaptchaReg)
            && (o.result.Raised? <==> needCaptchaReg && !ChallengeShown(env.topControls))
            && (o.result.Raised? ==> o.result.error == FoundUnbound)
    ensures var o := CopyOutcome(needCaptchaReg, viaMessage, controlId, env);
            var rows := env.decode(PayloadText(ClipboardData(needCaptchaReg, env).text));
            !o.result.Raised? ==> (o.result == NoRows <==> rows.None?) && (o.result.Rows? ==> o.result.rows == rows.value)
  {
    CaptchaGateRaises(needCaptchaReg, env);
  }

  /** When all five clipboard reads raise, the payload is the empty text; given that the
      decoder rejects empty input (pandas raises on it), `get` returns no rows and sets
      the flag. */
  lemma {:induction false} AllReadsFailNoRows(needCaptchaReg: bool, viaMessage: bool, controlId: int, env: Env)
    requires env.decode("").None?
    requires forall i :: 0 <= i < ClipboardAttempts ==> env.clipboard(i).None?
    ensures var o := CopyOutcome(needCaptchaReg, viaMessage, controlId, env);
            !o.result.Raised? ==> o.result == NoRows && o.needCaptchaReg
  {
    var results := ClipboardResults(env);
    assert forall i :: 0 <= i < ClipboardAttempts ==> results[i].None?;
    ClipboardReadBounded(results);
    CopyFlagRule(needCaptchaReg, viaMessage, controlId, env);
  }

  /** A series of Copy/WMCopy calls: each is (viaMessage, controlId, env). */
  function FlagAfterCalls(needCaptchaReg: bool, calls: seq<(bool, int, Env)>): bool
    decreases |calls|
  {
    if calls == [] then needCaptchaReg
    else FlagAfterCalls(CopyOutcome(needCaptchaReg, calls[0].0, calls[0].1, calls[0].2).needCaptchaReg, calls[1..])
  }

  /** The class flag starts set and stays set through any series of calls, so every
      later call that finds no captcha prompt raises UnboundLocalError. */
  lemma {:induction false} FlagStaysSet(calls: seq<(bool, int, Env)>, viaMessage: bool, controlId: int, env: Env)
    requires !ChallengeShown(env.topControls)
    ensures FlagAfterCalls(true, calls)
    ensures CopyOutcome(FlagAfterCalls(true, calls), viaMessage, controlId, env).result == Raised(FoundUnbound)
  {
    if calls != [] {
      CopyFlagRule(true, calls[0].0, calls[0].1, calls[0].2);
      FlagStaysSet(calls[1..], viaMessage, controlId, env);
    }
    CopyFlagRule(true, viaMessage, controlId, env);
  }

  // ================================================================ Xls

  /** BaseStrategy._set_foreground on `w`: restore a minimised window, otherwise bring
      it to the front; a raising call leaves no effect and is swallowed. */
  function ForegroundActions(w: Window, fg: Foreground): (acts: seq<Action>)
    ensures |acts| <= 1
  {
    match fg.minimised
    case None => []
    case Some(minimised) =>
      if fg.callRaises then [] else if minimised then [Restore(w)] else [BringToFront(w)]
  }

  lemma {:induction false} ForegroundFacts(w: Window, fg: Foreground)
    ensures |ForegroundActions(w, fg)| <= 1
    ensures Restore(w) in ForegroundActions(w, fg) <==> fg.minimised == Some(true) && !fg.callRaises
    ensures BringToFront(w) in ForegroundActions(w, fg) <==> fg.minimised == Some(false) && !fg.callRaises
    ensures fg.minimised.None? || fg.callRaises ==> ForegroundActions(w, fg) == []
    ensures forall a :: a in ForegroundActions(w, fg) ==> a == Restore(w) || a == BringToFront(w)
  {
  }

  /** The answers of the ten save-dialog checks. */
  function SaveChecks(env: Env): (checks: seq<bool>)
    ensures |checks| == SavePolls
  {
    seq(SavePolls, i requires 0 <= i => env.savePolls(i))
  }

  /** The index of the first positive check from `from` on, or |checks| when none is. */
  function FirstAppeared(checks: seq<bool>, from: nat): (k: nat)
    requires from <= |checks|
    decreases |checks| - from
    ensures from <= k <= |checks|
    ensures k < |checks| ==> checks[k]
    ensures forall j :: from <= j < k ==> !checks[j]
  {
    if from == |checks| || checks[from] then from else FirstAppeared(checks, from + 1)
  }

  datatype Polls = Polls(appeared: bool, actions: seq<Action>)

  /** The save-dialog wait loop from counter `count` down; poll index 10 - count. */
  function SaveDialogPolls(checks: seq<bool>, count: nat): (p: Polls)
    requires |checks| == SavePolls && count <= SavePolls
    ensures p.appeared ==> count > 0
    ensures p.actions == [] <==> count == 0
    decreases count
  {
    if count == 0 then Polls(false, [])
    else if checks[SavePolls - count] then Polls(true, [CheckPopDialog])
    else
      var rest := SaveDialogPolls(checks, count - 1);
      Polls(rest.appeared, [CheckPopDialog, Wait(200)] + rest.actions)
  }

  /** A check that finds no dialog is followed by a wait and the remaining polls. */
  lemma {:induction false} PollStep(checks: seq<bool>, count: nat, prev: nat)
    requires |checks| == SavePolls && 1 <= count <= SavePolls && prev + 1 == count
    requires !checks[SavePolls - count]
    ensures SaveDialogPolls(checks, count).actions == [CheckPopDialog, Wait(200)] + SaveDialogPolls(checks, prev).actions
    ensures SaveDialogPolls(checks, count).appeared == SaveDialogPolls(checks, prev).appeared
    ensures FirstAppeared(checks, SavePolls - count) == FirstAppeared(checks, SavePolls - prev)
  {
  }

  /** The polls stop at the first positive check, which is what `appeared` reports;
      each poll starts with a check and none clicks Button2. */
  lemma {:induction false} SaveDialogPollsStop(checks: seq<bool>, count: nat)
    requires |checks| == SavePolls && count <= SavePolls
    ensures SaveDialogPolls(checks, count).appeared == (FirstAppeared(checks, SavePolls - count) < SavePolls)
    ensures SaveDialogPolls(checks, count).actions != [] ==> SaveDialogPolls(checks, count).actions[0] == CheckPopDialog
    ensures Count(SaveDialogPolls(checks, count).actions, Click(TopButton2)) == 0
    decreases count
  {
    if count > 0 && !checks[SavePolls - count] {
      var prev := count - 1;
      var rest := SaveDialogPolls(checks, prev).actions;
      PollStep(checks, count, prev);
      SaveDialogPollsStop(checks, prev);
      CountAppend([CheckPopDialog, Wait(200)], rest, Click(TopButton2));
    }
  }

  /** The polls alternate check / 0.2 s wait: one check per poll made, up to and
      including the first positive one, and one wait after each negative check. */
  lemma {:induction false} SaveDialogPollsCounts(checks: seq<bool>, count: nat)
    requires |checks| == SavePolls && count <= SavePolls
    ensures var from := SavePolls - count;
            var k := FirstAppeared(checks, from);
            && Count(SaveDialogPolls(checks, count).actions, CheckPopDialog) == (if k < SavePolls then k + 1 - from else count)
            && Count(SaveDialogPolls(checks, count).actions, Wait(200)) == k - from
    ensures |SaveDialogPolls(checks, count).actions|
            == Count(SaveDialogPolls(checks, count).actions, CheckPopDialog) + Count(SaveDialogPolls(checks, count).actions, Wait(200))
    decreases count
  {
    if count > 0 && !checks[SavePolls - count] {
      var prev := count - 1;
      var rest := SaveDialogPolls(checks, prev).actions;
      PollStep(checks, count, prev);
      SaveDialogPollsCounts(checks, prev);
      CountAppend([CheckPopDialog, Wait(200)], rest, CheckPopDialog);
      CountAppend([CheckPopDialog, Wait(200)], rest, Wait(200));
    }
  }

  /** No save dialog ever: exactly 10 checks with a 0.2 s wait after each. */
  lemma {:induction false} NoSaveDialogPollsTenTimes(checks: seq<bool>)
    requires |checks| == SavePolls && forall i :: 0 <= i < SavePolls ==> !checks[i]
    ensures var p := SaveDialogPolls(checks, SavePolls);
            && !p.appeared
            && Count(p.actions, CheckPopDialog) == SavePolls
            && Count(p.actions, Wait(200)) == SavePolls
  {
    SaveDialogPollsStop(checks, SavePolls);
    SaveDialogPollsCounts(checks, SavePolls);
  }

  /** The fixed steps of Xls.get after the polls: fill in the path, Alt+S Alt+Y, check
      for a popup. */
  function SaveKeys(path: string): seq<Action>
  {
    [SetEditText(TopEdit1, path), Wait(100), TypeKeys(TopWindow, "%{s}%{y}", false), Wait(200), CheckPopDialog]
  }

  /** The popup dismissal that ends Xls.get's save. */
  function Dismissal(popAfterSave: bool): seq<Action>
  {
    if popAfterSave then [Click(TopButton2), Wait(200)] else []
  }

  function SaveSteps(path: string, env: Env): seq<Action>
  {
    SaveKeys(path) + Dismissal(env.popAfterSave)
  }

  /** The save steps check for a popup once and click Button2 only when one is there. */
  lemma {:induction false} SaveStepsCounts(path: string, env: Env)
    ensures Count(SaveSteps(path, env), CheckPopDialog) == 1
    ensures Count(SaveSteps(path, env), Click(TopButton2)) == (if env.popAfterSave then 1 else 0)
  {
    var keys := SaveKeys(path);
    var pop := Dismissal(env.popAfterSave);
    CountAppend(keys, pop, CheckPopDialog);
    CountAppend(keys, pop, Click(TopButton2));
    assert keys == keys[..4] + [CheckPopDialog];
    CountAppend(keys[..4], [CheckPopDialog], CheckPopDialog);
    CountAppend(keys[..4], [CheckPopDialog], Click(TopButton2));
    CountZero(keys[..4], CheckPopDialog);
    CountZero(keys[..4], Click(TopButton2));
    CountZero(pop, CheckPopDialog);
    if env.popAfterSave {
      CountZero(pop[1..], Click(TopButton2));
    }
  }

  /** Xls.get: the actions up to and including the polls. */
  function SaveRequest(controlId: int, env: Env): seq<Action>
  {
    ForegroundActions(GridOf(controlId), env.gridForeground) + [TypeKeys(GridOf(controlId), "^s", false)]
    + SaveDialogPolls(SaveChecks(env), SavePolls).actions
  }

  /** Xls.get with a bound trader; Xls never reads or writes the Copy class flag, so
      `needCaptchaReg` comes back as it was given. */
  function XlsOutcome(needCaptchaReg: bool, tmpFolder: Option<string>, controlId: int, env: Env): (o: Outcome)
    ensures o.needCaptchaReg == needCaptchaReg
    ensures o.result.Raised? ==> o.result.error == ExportNotDecoded
  {
    var path := env.mktemp(tmpFolder);
    var acts := SaveRequest(controlId, env) + (ForegroundActions(TopWindow, env.dialogForeground) + SaveSteps(path, env));
    var rows := env.readExport(path);
    Outcome(acts, if rows.Some? then Rows(rows.value) else Raised(ExportNotDecoded), needCaptchaReg)
  }

  /** Foregrounding neither checks for a popup nor clicks Button2. */
  lemma {:induction false} ForegroundCounts(w: Window, fg: Foreground)
    ensures Count(ForegroundActions(w, fg), CheckPopDialog) == 0
    ensures Count(ForegroundActions(w, fg), Click(TopButton2)) == 0
  {
    ForegroundFacts(w, fg);
    CountZero(ForegroundActions(w, fg), CheckPopDialog);
    CountZero(ForegroundActions(w, fg), Click(TopButton2));
  }

  /** Up to the save dialog: at most 10 checks, no Button2 click. */
  lemma {:induction false} SaveRequestCounts(controlId: int, env: Env)
    ensures Count(SaveRequest(controlId, env), CheckPopDialog) <= SavePolls
    ensures Count(SaveRequest(controlId, env), Click(TopButton2)) == 0
  {
    var f := ForegroundActions(GridOf(controlId), env.gridForeground);
    var key: seq<Action> := [TypeKeys(GridOf(controlId), "^s", false)];
    var checks := SaveChecks(env);
    var polls := SaveDialogPolls(checks, SavePolls).actions;
    assert SaveRequest(controlId, env) == f + key + polls;
    ForegroundCounts(GridOf(controlId), env.gridForeground);
    assert Count(polls, CheckPopDialog) <= SavePolls by {
      SaveDialogPollsCounts(checks, SavePolls);
    }
    assert Count(polls, Click(TopButton2)) == 0 by {
      SaveDialogPollsStop(checks, SavePolls);
    }
    CountAppend(f + key, polls, CheckPopDialog);
    CountAppend(f + key, polls, Click(TopButton2));
    CountAppend(f, key, CheckPopDialog);
    CountAppend(f, key, Click(TopButton2));
  }

  /** After saving, Button2 is clicked only if a pop dialog exists; the dialog is looked
      for at most 11 times; the rows come from the exported file, and a failure to read
      it escapes. */
  lemma {:induction false} XlsDismissal(needCaptchaReg: bool, tmpFolder: Option<string>, controlId: int, env: Env)
    ensures Count(XlsOutcome(needCaptchaReg, tmpFolder, controlId, env).actions, Click(TopButton2)) == (if env.popAfterSave then 1 else 0)
    ensures Count(XlsOutcome(needCaptchaReg, tmpFolder, controlId, env).actions, CheckPopDialog) <= SavePolls + 1
    ensures XlsOutcome(needCaptchaReg, tmpFolder, controlId, env).result.Rows? <==> env.readExport(env.mktemp(tmpFolder)).Some?
    ensures XlsOutcome(needCaptchaReg, tmpFolder, controlId, env).result.Raised? ==> XlsOutcome(needCaptchaReg, tmpFolder, controlId, env).result.error == ExportNotDecoded
    ensures XlsOutcome(needCaptchaReg, tmpFolder, controlId, env).result.Rows? ==> XlsOutcome(needCaptchaReg, tmpFolder, controlId, env).result.rows == env.readExport(env.mktemp(tmpFolder)).value
    ensures SetEditText(TopEdit1, env.mktemp(tmpFolder)) in XlsOutcome(needCaptchaReg, tmpFolder, controlId, env).actions
    ensures XlsOutcome(needCaptchaReg, tmpFolder, controlId, env).needCaptchaReg == needCaptchaReg
  {
    var request := SaveRequest(controlId, env);
    var f := ForegroundActions(TopWindow, env.dialogForeground);
    var save := SaveSteps(env.mktemp(tmpFolder), env);
    SaveRequestCounts(controlId, env);
    ForegroundCounts(TopWindow, env.dialogForeground);
    SaveStepsCounts(env.mktemp(tmpFolder), env);
    CountAppend(request, f + save, CheckPopDialog);
    CountAppend(request, f + save, Click(TopButton2));
    CountAppend(f, save, CheckPopDialog);
    CountAppend(f, save, Click(TopButton2));
  }

  // ================================================================ the imperative model

  /** The trader session a strategy is bound to, seen as the UI actions done through it. */
  class Trader {
    var actions: seq<Action>

    constructor()
      ensures actions == []
    {
      actions := [];
    }

    method Perform(a: Action)
      modifies this
      ensures actions == old(actions) + [a]
    {
      actions := actions + [a];
    }
  }

  /** The class attribute `Copy._need_captcha_reg`, shared by every Copy and WMCopy
      instance. */
  class CopyClassState {
    var needCaptchaReg: bool

    constructor()
      ensures needCaptchaReg
    {
      needCaptchaReg := true;
    }
  }

  /** BaseStrategy._set_foreground (`w` None stands for the trader's main window). */
  method SetForeground(ui: Trader, w: Option<Window>, fg: Foreground)
    modifies ui
    ensures ui.actions == old(ui.actions) + ForegroundActions(if w.Some? then w.value else MainWindow, fg)
  {
    var target := if w.Some? then w.value else MainWindow;
    match fg.minimised {
      case None =>
      case Some(minimised) =>
        if !fg.callRaises {
          if minimised {
            ui.Perform(Restore(target));
          } else {
            ui.Perform(BringToFront(target));
          }
        }
    }
  }

  /** The save-dialog wait of Xls.get: up to 10 checks, 0.2 s apart, stopping at the
      first one that finds the dialog. */
  method WaitForSaveDialog(ui: Trader, env: Env)
    modifies ui
    ensures ui.actions == old(ui.actions) + SaveDialogPolls(SaveChecks(env), SavePolls).actions
  {
    ghost var checks := SaveChecks(env);
    ghost var start := ui.actions;
    var count := SavePolls;
    while count > 0
      invariant 0 <= count <= SavePolls
      invariant start + SaveDialogPolls(checks, SavePolls).actions == ui.actions + SaveDialogPolls(checks, count).actions
      decreases count
    {
      ghost var mark := ui.actions;
      ui.Perform(CheckPopDialog);
      if env.savePolls(SavePolls - count) {
        assert checks[SavePolls - count];
        break;
      }
      ui.Perform(Wait(200));
      assert ui.actions == mark + [CheckPopDialog, Wait(200)];
      Associate(mark, [CheckPopDialog, Wait(200)], SaveDialogPolls(checks, count - 1).actions);
      count := count - 1;
    }
  }

  /** One pass of the captcha loop body up to the decrement: capture the image, clean the
      recogniser's answer and submit it when it has 4 characters; `solved` when the
      dialog then disappears. */
  method CaptchaAttempt(ui: Trader, env: Env, count: nat) returns (solved: bool)
    requires 1 <= count <= CaptchaAttempts
    modifies ui
    ensures ui.actions == old(ui.actions) + AttemptActions(Replies(env)[CaptchaAttempts - count], count)
    ensures solved == Solves(Replies(env)[CaptchaAttempts - count])
  {
    ghost var start := ui.actions;
    ghost var r := Replies(env)[CaptchaAttempts - count];
    var path := CapturePath(count);
    ui.Perform(CaptureImage(CaptchaImage, path));
    var answer := CleanAnswer(env.recognize(CaptchaAttempts - count));
    assert answer == r.answer;
    solved := false;
    if |answer| == AnswerLength {
      ui.Perform(TypeEditText(CaptchaEdit, answer));
      ui.Perform(SetFocus(TopWindow));
      ui.Perform(SendKeys("{ENTER}"));
      ui.Perform(WaitGone(TopWindow, 500));
      solved := env.dismissed(CaptchaAttempts - count);
    }
  }

  /** The captcha loop of Copy._get_clipboard_data: counter 5 down to 1, leaving early
      when the dialog disappears after a submitted answer. */
  method RunCaptchaLoop(ui: Trader, env: Env) returns (found: bool)
    modifies ui
    ensures ui.actions == old(ui.actions) + CaptchaRounds(Replies(env), CaptchaAttempts).actions
    ensures found == CaptchaRounds(Replies(env), CaptchaAttempts).found
  {
    ghost var rs := Replies(env);
    ghost var start := ui.actions;
    var count := CaptchaAttempts;
    found := false;
    while count > 0
      invariant 0 <= count <= CaptchaAttempts && !found
      invariant start + CaptchaRounds(rs, CaptchaAttempts).actions == ui.actions + CaptchaRounds(rs, count).actions
      invariant CaptchaRounds(rs, CaptchaAttempts).found == CaptchaRounds(rs, count).found
      decreases count
    {
      ghost var mark := ui.actions;
      var solved := CaptchaAttempt(ui, env, count);
      if solved {
        found := true;
        break;
      }
      ghost var attempt := ui.actions;
      count := count - 1;
      ui.Perform(Click(CaptchaImage));
      ui.Perform(Wait(100));
      assert ui.actions == attempt + Refresh;
      Regroup(mark, AttemptActions(rs[CaptchaAttempts - (count + 1)], count + 1), Refresh, CaptchaRounds(rs, count).actions);
    }
  }

  /** The captcha loop, then Cancel (Button2) when no attempt resolved the challenge. */
  method AnswerChallenge(ui: Trader, env: Env)
    modifies ui
    ensures ui.actions == old(ui.actions) + ChallengeActions(Replies(env))
  {
    ghost var start := ui.actions;
    var found := RunCaptchaLoop(ui, env);
    if !found {
      ui.Perform(Click(TopButton2));
    }
    Associate(start, CaptchaRounds(Replies(env), CaptchaAttempts).actions, if found then [] else [Click(TopButton2)]);
  }

  /** The captcha branch with the class flag set: look for the prompt, then answer it.
      `raised` when there is no prompt, since `found` is then read unassigned. */
  method MeetChallenge(ui: Trader, env: Env) returns (raised: bool)
    modifies ui
    ensures ui.actions == old(ui.actions) + CaptchaGate(true, env).actions
    ensures raised == CaptchaGate(true, env).raised
  {
    ghost var start := ui.actions;
    ui.Perform(LookForChallenge);
    if !ChallengeShown(env.topControls) {
      // `found` was never assigned: `if not found` raises UnboundLocalError
      return true;
    }
    ui.Perform(Wait(100));
    assert ui.actions == start + [LookForChallenge, Wait(100)];
    AnswerChallenge(ui, env);
    Associate(start, [LookForChallenge, Wait(100)], ChallengeActions(Replies(env)));
    raised := false;
  }

  /** The clipboard read of Copy._get_clipboard_data: up to five reads, returning the
      first text read; None once all five raised. */
  method ReadClipboardWithRetry(ui: Trader, env: Env) returns (text: Option<string>)
    modifies ui
    ensures ui.actions == old(ui.actions) + ClipboardReads(ClipboardResults(env), ClipboardAttempts).actions
    ensures text == ClipboardReads(ClipboardResults(env), ClipboardAttempts).text
  {
    ghost var results := ClipboardResults(env);
    ghost var start := ui.actions;
    var count := ClipboardAttempts;
    while count > 0
      invariant 0 <= count <= ClipboardAttempts
      invariant start + ClipboardReads(results, ClipboardAttempts).actions == ui.actions + ClipboardReads(results, count).actions
      invariant ClipboardReads(results, ClipboardAttempts).text == ClipboardReads(results, count).text
      decreases count
    {
      ghost var mark := ui.actions;
      ui.Perform(ReadClipboard);
      var data := env.clipboard(ClipboardAttempts - count);
      assert data == results[ClipboardAttempts - count];
      if data.Some? {
        return data;
      }
      Associate(mark, [ReadClipboard], ClipboardReads(results, count - 1).actions);
      count := count - 1;
    }
    return None;
  }

  /** Xls.get up to the save dialog: foreground the grid, Ctrl+S, wait for the dialog. */
  method RequestSave(ui: Trader, controlId: int, env: Env)
    modifies ui
    ensures ui.actions == old(ui.actions) + SaveRequest(controlId, env)
  {
    ghost var start := ui.actions;
    var grid := GridOf(controlId);
    SetForeground(ui, Some(grid), env.gridForeground);
    ui.Perform(TypeKeys(grid, "^s", false));
    ghost var mark := ui.actions;
    WaitForSaveDialog(ui, env);
    assert ui.actions == mark + SaveDialogPolls(SaveChecks(env), SavePolls).actions;
    Associate(start, ForegroundActions(grid, env.gridForeground), [TypeKeys(grid, "^s", false)]);
    Associate(start, ForegroundActions(grid, env.gridForeground) + [TypeKeys(grid, "^s", false)], SaveDialogPolls(SaveChecks(env), SavePolls).actions);
  }

  /** Xls.get after the save dialog: foreground it, save under `path`, dismiss a popup. */
  method FinishSave(ui: Trader, path: string, env: Env)
    modifies ui
    ensures ui.actions == old(ui.actions) + (ForegroundActions(TopWindow, env.dialogForeground) + SaveSteps(path, env))
  {
    ghost var start := ui.actions;
    SetForeground(ui, Some(TopWindow), env.dialogForeground);
    SaveAs(ui, path, env);
    Associate(start, ForegroundActions(TopWindow, env.dialogForeground), SaveSteps(path, env));
  }

  /** The end of Xls.get's save: type the path, Alt+S Alt+Y, then dismiss a popup
      with Button2 only when one is there. */
  method SaveAs(ui: Trader, path: string, env: Env)
    modifies ui
    ensures ui.actions == old(ui.actions) + SaveSteps(path, env)
  {
    ui.Perform(SetEditText(TopEdit1, path));
    ui.Perform(Wait(100));
    ui.Perform(TypeKeys(TopWindow, "%{s}%{y}", false));
    ui.Perform(Wait(200));
    ui.Perform(CheckPopDialog);
    if env.popAfterSave {
      ui.Perform(Click(TopButton2));
      ui.Perform(Wait(200));
    }
  }

  /** A grid strategy: Copy, WMCopy or Xls. */
  class GridStrategy {
    const kind: StrategyKind
    const copyClass: CopyClassState
    var trader: Trader?

    /** BaseStrategy.__init__ (and Xls.__init__ with its tmp_folder inside `kind`). */
    constructor(kind: StrategyKind, copyClass: CopyClassState)
      ensures this.kind == kind && this.copyClass == copyClass && trader == null
    {
      this.kind := kind;
      this.copyClass := copyClass;
      trader := null;
    }

    method SetTrader(t: Trader)
      modifies this
      ensures trader == t
    {
      trader := t;
    }

    /** Copy._get_clipboard_data up to the clipboard read: the captcha protocol when the
        class flag is set; `raised` when `found` is read unassigned. */
    method PassCaptcha(env: Env) returns (raised: bool)
      requires trader != null
      modifies trader
      ensures var g := CaptchaGate(old(copyClass.needCaptchaReg), env);
              trader.actions == old(trader.actions) + g.actions && raised == g.raised
    {
      if copyClass.needCaptchaReg {
        raised := MeetChallenge(trader, env);
      } else {
        raised := false;
      }
    }

    /** Copy._get_clipboard_data: the captcha protocol (when the class flag is set),
        then up to five clipboard results. */
    method GetClipboardData(env: Env) returns (raised: bool, text: Option<string>)
      requires trader != null
      modifies trader
      ensures var f := ClipboardData(old(copyClass.needCaptchaReg), env);
              trader.actions == old(trader.actions) + f.actions && raised == f.raised && text == f.text
    {
      raised := PassCaptcha(env);
      if raised {
        return true, None;
      }
      text := ReadClipboardWithRetry(trader, env);
    }

    /** Copy._format_grid_data: decode the text; on failure set the class flag. */
    method FormatGridData(data: Option<string>, env: Env) returns (rows: Option<RowSet>)
      modifies copyClass
      ensures rows == env.decode(PayloadText(data))
      ensures copyClass.needCaptchaReg == (old(copyClass.needCaptchaReg) || rows.None?)
    {
      rows := env.decode(PayloadText(data));
      if rows.None? {
        copyClass.needCaptchaReg := true;
      }
    }

    /** Copy.get and WMCopy.get */
    method CopyGet(viaMessage: bool, controlId: int, env: Env) returns (r: GetResult)
      requires trader != null
      modifies trader, copyClass
      ensures var o := CopyOutcome(old(copyClass.needCaptchaReg), viaMessage, controlId, env);
              && trader.actions == old(trader.actions) + o.actions
              && r == o.result
              && copyClass.needCaptchaReg == o.needCaptchaReg
    {
      ghost var start := trader.actions;
      ghost var fetched := ClipboardData(copyClass.needCaptchaReg, env);
      var grid := GridOf(controlId);
      if viaMessage {
        trader.Perform(PostMessage(grid, WmCommand, CopyCommandId, 0));
        trader.Perform(Wait(100));
      } else {
        trader.Perform(TypeKeys(grid, "^A^C", false));
      }
      assert trader.actions == start + CopyTrigger(viaMessage, controlId);
      var raised, content := GetClipboardData(env);
      Associate(start, CopyTrigger(viaMessage, controlId), fetched.actions);
      if raised {
        return Raised(FoundUnbound);
      }
      var rows := FormatGridData(content, env);
      r := if rows.Some? then Rows(rows.value) else NoRows;
    }

    /** Xls.get */
    method XlsGet(tmpFolder: Option<string>, controlId: int, env: Env) returns (r: GetResult)
      requires trader != null
      modifies trader
      ensures var o := XlsOutcome(copyClass.needCaptchaReg, tmpFolder, controlId, env);
              trader.actions == old(trader.actions) + o.actions && r == o.result
    {
      var t := trader;
      ghost var start := t.actions;
      RequestSave(t, controlId, env);
      var path := env.mktemp(tmpFolder);
      FinishSave(t, path, env);
      Associate(start, SaveRequest(controlId, env), ForegroundActions(TopWindow, env.dialogForeground) + SaveSteps(path, env));
      var rows := env.readExport(path);
      r := if rows.Some? then Rows(rows.value) else Raised(ExportNotDecoded);
    }

    /** IGridStrategy.get, dispatched on the strategy kind. Without a trader the first
        access to `self._trader.main` raises AttributeError. */
    method Get(controlId: int, env: Env) returns (r: GetResult)
      modifies trader, copyClass
      ensures old(trader) == null ==> r == Raised(TraderNotSet) && copyClass.needCaptchaReg == old(copyClass.needCaptchaReg)
      ensures old(trader) != null && !kind.Xls? ==>
                var o := CopyOutcome(old(copyClass.needCaptchaReg), kind.WMCopy?, controlId, env);
                && trader.actions == old(trader.actions) + o.actions && r == o.result
                && copyClass.needCaptchaReg == o.needCaptchaReg
      ensures old(trader) != null && kind.Xls? ==>
                var o := XlsOutcome(old(copyClass.needCaptchaReg), kind.tmpFolder, controlId, env);
                && trader.actions == old(trader.actions) + o.actions && r == o.result
                && copyClass.needCaptchaReg == o.needCaptchaReg
    {
      if trader == null {
        return Raised(TraderNotSet);
      }
      match kind {
        case Xls(folder) => r := XlsGet(folder, controlId, env);
        case Copy => r := CopyGet(false, controlId, env);
        case WMCopy => r := CopyGet(true, controlId, env);
      }
    }
  }
}
