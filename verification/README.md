# easytrader grid strategies and fast client, in Dafny

easytrader drives a Chinese desktop trading client through its UI. This project models
two parts of it.

- **Grid data acquisition** (`easytrader/grid_strategies.py`). The `Copy`, `WMCopy` and
  `Xls` strategies read the rows of the client's proprietary grid control. The model
  covers:
  - Copy's captcha retry protocol: a class-level flag, at most five
    capture → recognise → submit attempts, image refresh, and Cancel.
  - The five-try clipboard read.
  - The decode-failure rule that sets the class flag.
  - Xls's ten-poll wait for the save dialog, and the popup dismissal after saving.
  - Best-effort foregrounding.
- **The accelerated client** (`easytrader/custom/fast_universal_clienttrader.py`). The
  model covers:
  - The rule that sends a one-entry menu path naming F1–F4 to a function-key shortcut.
  - The keystroke strings typed to enter an order.
  - The order of menu switches in buy, sell and position.

Three modules, one file each:

| file | module | what it holds |
|---|---|---|
| `text.dfy` | `Text` | Python's whitespace, `strip`/`split`/`"".join`, `sub in s`, `str(int)` and `int(x)` on numbers |
| `grid_strategies.dfy` | `GridStrategies` | the strategies as a class `GridStrategy`, with a `Trader` whose `actions` trace records every UI call in order |
| `fast_trader.dfy` | `FastTrader` | the dispatch rule and keystroke strings as functions, and a class `FastUniversalClientTrader` whose methods append to a call trace |

How the model represents the source:

- **UI and library answers.** Everything the UI or a library answers comes from a value:
  - for the grid strategies, `Env`. Its function-typed fields are of two kinds:
    - the recogniser, dialog, clipboard and save-poll answers are indexed by attempt or
      poll number;
    - `decode`, `mktemp` and `readExport` take the clipboard text, the folder and the
      path.
  - for the fast client, `Client`.

  This covers the recogniser's text, whether the dialog vanished, clipboard reads,
  save-dialog checks, pandas decoding, `mktemp`, the superclasses' replies and price
  rounding.
- **Loops.** Each loop of the source is a `while` loop in a method. The method is proved
  against a recursive specification function: `CaptchaRounds`, `ClipboardReads` or
  `SaveDialogPolls`. The properties of the source are lemmas about those functions.
- **The class flag.** `Copy._need_captcha_reg` is a class attribute shared by every Copy
  and WMCopy instance. It is modelled as one `CopyClassState` object. Each
  `GridStrategy` takes the object it is constructed with, so the caller must pass the
  same object to every strategy; the model does not enforce this sharing.
- **An unassigned `found`.** The flag starts set and no code path clears it: the reset
  at `grid_strategies.py:158` is commented out. When the flag is set and no captcha
  prompt is on screen, `found` is never assigned, and `if not found` at line 154 raises
  UnboundLocalError. The model keeps this behaviour as the outcome
  `Raised(FoundUnbound)`. `FlagStaysSet` proves two consequences:
  - the flag stays set through any series of calls;
  - every Copy/WMCopy `get` that finds no prompt raises.
- **Send-keys strings.** The keystroke strings are given a meaning by a small send-keys
  reader, `Tokenize`:
  - a `{…}` group is one key or pause;
  - every other character is typed as itself.

  The lemmas show that each string reads as the intended series of keys and that the
  characters typed are exactly the code, the price and the quantity. The reader keeps
  spaces, tabs and newlines. pywinauto's `type_keys` drops them by default, so this
  holds as stated only for a code and a price without whitespace.

## Model

| member | source | states |
|---|---|---|
| Text.Squeeze | easytrader/grid_strategies.py:122-123 | removing whitespace never makes the answer longer |
| Text.SqueezeNoSpace | easytrader/grid_strategies.py:122-123 | the cleaned answer holds no whitespace, and a text without whitespace is left unchanged |
| Text.StripLeft | easytrader/grid_strategies.py:122 | `lstrip` returns the suffix left after dropping the leading whitespace: every dropped character is whitespace and the result does not start with whitespace |
| Text.StripRight | easytrader/grid_strategies.py:122 | `rstrip` returns the prefix left after dropping the trailing whitespace: every dropped character is whitespace and the result does not end with whitespace |
| Text.Strip | easytrader/grid_strategies.py:122 | `strip` is never longer than the text, neither starts nor ends with whitespace, and leaves a text without whitespace unchanged |
| Text.WordsFrom | easytrader/grid_strategies.py:123 | every word `split()` yields is non-empty and holds no whitespace |
| Text.Split | easytrader/grid_strategies.py:123 | every word of `split()` is non-empty and holds no whitespace |
| Text.Join | easytrader/grid_strategies.py:123 | `"".join` of words without whitespace holds no whitespace |
| Text.JoinWordsFrom | easytrader/grid_strategies.py:123 | joining the words of `split()` with "" deletes exactly the whitespace characters |
| Text.SplitJoinStripIsSqueeze | easytrader/grid_strategies.py:122-123 | strip, then split, then join with "" deletes every whitespace character, including those inside the answer, and keeps every other character in order |
| Text.Contains | easytrader/custom/fast_universal_clienttrader.py:25-31 | `sub in s` holds for the empty `sub`, and only when `sub` is no longer than `s` |
| Text.ContainsIffOccurs | easytrader/custom/fast_universal_clienttrader.py:25-31 | Python's `sub in s` holds exactly when `sub` occurs at some index of `s` |
| Text.NatToString | easytrader/custom/fast_universal_clienttrader.py:89 | `str(n)` of a non-negative number is decimal digits with no leading zero |
| Text.IntToString | easytrader/custom/fast_universal_clienttrader.py:89 | `str(i)` is digits, preceded by a minus sign only when `i` is negative |
| Text.NatRoundTrip | easytrader/custom/fast_universal_clienttrader.py:89 | the digits of `str(n)` read back as `n` |
| Text.IntRoundTrip | easytrader/custom/fast_universal_clienttrader.py:89 | `str(i)` reads back as `i` |
| Text.Trunc | easytrader/custom/fast_universal_clienttrader.py:89 | `int(x)` truncates toward zero: it is within 1 of `x` on the side of 0 |
| GridStrategies.CleanAnswer | easytrader/grid_strategies.py:122-123 | the cleaned answer is the recogniser's text with all whitespace deleted; it holds no whitespace, is no longer than the text, and equals it when the text had none |
| GridStrategies.Replies | easytrader/grid_strategies.py:114-141 | there are exactly five attempts' replies |
| GridStrategies.FirstSolved | easytrader/grid_strategies.py:114-141 | finds the first attempt whose answer has 4 characters and after which the dialog disappears; no earlier attempt resolves |
| GridStrategies.AttemptsMade | easytrader/grid_strategies.py:114-153 | the loop never makes more attempts than its counter allows |
| GridStrategies.GridOf | easytrader/grid_strategies.py:55-60 | the grid is the main window's child with the given control id and the grid class |
| GridStrategies.ChallengeShown | easytrader/grid_strategies.py:107-109 | the prompt counts as shown only if the top window has a control of the prompt's class whose title starts with `验证码`; with no controls there is no prompt |
| GridStrategies.CaptchaRounds | easytrader/grid_strategies.py:111-153 | the loop from counter `count` resolves only when `count` > 0, and does something exactly when `count` > 0; its meaning is stated by CaptchaLoopOutcome, RoundsCaptures and RoundsSubmissions |
| GridStrategies.CaptureSeries | easytrader/grid_strategies.py:115-120 | `n` attempts from counter `count` capture to `tmp-count.png` downwards, one file each |
| GridStrategies.SeriesStep | easytrader/grid_strategies.py:115-120 | a series of captures starts with the file of the current counter, then continues from the next counter |
| GridStrategies.FourCharAnswers | easytrader/grid_strategies.py:126-133 | only 4-character answers are typed, at most one per attempt |
| GridStrategies.SubmitFacts | easytrader/grid_strategies.py:126-141 | a 4-character answer is typed and Enter is pressed once; an answer of any other length is not submitted; neither the image nor Cancel is clicked |
| GridStrategies.AttemptRecords | easytrader/grid_strategies.py:115-136 | each attempt captures one image to its counter's file and types its answer only when that has 4 characters |
| GridStrategies.AttemptFacts | easytrader/grid_strategies.py:115-141 | an attempt presses Enter once per answer typed and clicks neither the image nor Cancel |
| GridStrategies.RefreshRecords | easytrader/grid_strategies.py:149-153 | the refresh after an unresolved attempt neither captures nor types anything |
| GridStrategies.RefreshFacts | easytrader/grid_strategies.py:149-153 | the refresh clicks the captcha image once and neither presses Enter nor clicks Cancel |
| GridStrategies.UnsolvedStep | easytrader/grid_strategies.py:114-153 | an unresolved attempt decrements the counter and adds one attempt; it changes neither `found` nor which attempt resolves first |
| GridStrategies.RoundsFound | easytrader/grid_strategies.py:112-141 | the loop ends with `found` exactly when some remaining attempt resolves the challenge |
| GridStrategies.UnsolvedCaptures | easytrader/grid_strategies.py:114-153 | an unresolved attempt contributes its capture ahead of the later rounds' |
| GridStrategies.UnsolvedSubmissions | easytrader/grid_strategies.py:126-153 | an unresolved attempt contributes its answer, when that has 4 characters, ahead of the later rounds' |
| GridStrategies.SolvedRound | easytrader/grid_strategies.py:137-141 | a resolving attempt breaks out of the loop before the decrement; it is the last attempt, with one capture and its answer |
| GridStrategies.UnsolvedAnswers | easytrader/grid_strategies.py:126-153 | the answers typed from an unresolved attempt on are its own, followed by those of the later attempts |
| GridStrategies.UnsolvedRoundCounts | easytrader/grid_strategies.py:114-153 | each click and key of the rounds from an unresolved attempt is that attempt's, its refresh's, or the later rounds' |
| GridStrategies.RoundsCaptures | easytrader/grid_strategies.py:114-120 | the loop captures one image per attempt made, named `tmp-5.png` downwards from the counter |
| GridStrategies.CapturesStep | easytrader/grid_strategies.py:114-153 | the captures of an unresolved attempt's round come before those of the later rounds |
| GridStrategies.RoundsRefreshes | easytrader/grid_strategies.py:149-153 | the image is clicked once for each attempt that did not resolve the challenge |
| GridStrategies.RefreshesStep | easytrader/grid_strategies.py:149-153 | an unresolved attempt adds one image click to those of the later rounds |
| GridStrategies.RoundsSubmissions | easytrader/grid_strategies.py:126-141 | the answers typed are exactly the 4-character answers of the attempts made, in order |
| GridStrategies.SubmissionsStep | easytrader/grid_strategies.py:126-153 | the answers of an unresolved attempt's round come before those of the later rounds |
| GridStrategies.RoundsEnters | easytrader/grid_strategies.py:126-141 | the loop presses Enter exactly once per answer it types |
| GridStrategies.EntersStep | easytrader/grid_strategies.py:126-153 | an unresolved attempt's Enter goes with its own answer, ahead of the later rounds' |
| GridStrategies.RoundsNoCancel | easytrader/grid_strategies.py:111-153 | the loop itself never clicks Cancel (`Button2`) |
| GridStrategies.CapturePathNames | easytrader/grid_strategies.py:115 | the capture files are `tmp-5.png` to `tmp-1.png` |
| GridStrategies.SeriesNames | easytrader/grid_strategies.py:111-120 | the captures of the first n attempts are the first n of `tmp-5.png`, …, `tmp-1.png` |
| GridStrategies.CaptchaFiles | easytrader/grid_strategies.py:111-120 | at most 5 capture cycles, saved as a prefix of `tmp-5.png`, …, `tmp-1.png` |
| GridStrategies.ChallengeCaptures | easytrader/grid_strategies.py:111-155 | answering the challenge always captures at least one image |
| GridStrategies.CaptchaLoopOutcome | easytrader/grid_strategies.py:111-153 | the loop resolves the challenge exactly when one of the five attempts does; at most 5 attempts are made; success on attempt k means that no earlier attempt resolved it, and leaves k captures and k − 1 refresh clicks; failure leaves 5 of each |
| GridStrategies.NoFourCharAnswers | easytrader/grid_strategies.py:126 | attempts without a 4-character answer type nothing |
| GridStrategies.WrongLengthAnswersExhaustAttempts | easytrader/grid_strategies.py:111-153 | when no answer has 4 characters: nothing is typed or submitted, all 5 attempts are used, and the loop ends unresolved |
| GridStrategies.ResolvedOnThirdAttempt | easytrader/grid_strategies.py:111-153 | success on the third attempt gives captures `tmp-5.png`, `tmp-4.png`, `tmp-3.png` and 2 refresh clicks |
| GridStrategies.CaptchaGate | easytrader/grid_strategies.py:105-155 | nothing is done exactly when the flag is clear; a raise happens only with the flag set, after a single look for the prompt |
| GridStrategies.CaptchaGateRaises | easytrader/grid_strategies.py:105-112 | the prompt is looked for only when the class flag is set; the call raises exactly when the flag is set and no `Static` "验证码" prompt is on the top window |
| GridStrategies.CaptchaGateCaptures | easytrader/grid_strategies.py:105-120 | images are captured exactly when the flag is set and the prompt is shown |
| GridStrategies.ChallengeCancel | easytrader/grid_strategies.py:154-155 | after the loop, Cancel is clicked once when no attempt resolved the challenge, and not at all otherwise |
| GridStrategies.ShownGateCancels | easytrader/grid_strategies.py:105-155 | with the flag set and the prompt shown, every Cancel click of the call is one of the challenge's |
| GridStrategies.HiddenGateCancels | easytrader/grid_strategies.py:105-112 | without the flag, or without the prompt, the call never clicks Cancel |
| GridStrategies.CaptchaGateCancel | easytrader/grid_strategies.py:105-155 | Cancel (`Button2`) is clicked at most once, and exactly when the prompt was shown and none of the five attempts resolved it |
| GridStrategies.ClipboardResults | easytrader/grid_strategies.py:159-166 | there are exactly five clipboard read results |
| GridStrategies.ClipboardReads | easytrader/grid_strategies.py:159-166 | reading from counter `count` does something exactly when `count` > 0, and yields text only then; ClipboardReadsShape states the full meaning |
| GridStrategies.FirstRead | easytrader/grid_strategies.py:159-166 | finds the first read that does not raise; every earlier read raised |
| GridStrategies.ClipboardReadsShape | easytrader/grid_strategies.py:159-166 | the reads stop at the first one that succeeds and return its text; after the last failure the result is None; only reads are performed |
| GridStrategies.ClipboardReadBounded | easytrader/grid_strategies.py:159-166 | there are at least 1 and at most 5 reads; every read before the last one raised, and the text of the last read is returned; None is returned, without raising, exactly when all five reads raised |
| GridStrategies.CopyFlagRule | easytrader/grid_strategies.py:80-101 | when the call does not raise, it returns no rows exactly when pandas fails to decode the clipboard text, and otherwise exactly the decoded rows; a decode failure sets the class flag, and a success leaves the flag alone; no path clears the flag; the call raises UnboundLocalError exactly when the flag is set and no prompt is shown |
| GridStrategies.CopyOutcome | easytrader/grid_strategies.py:82-101 | `get` starts with its copy trigger (Ctrl+A Ctrl+C, or the WM_COMMAND message) and never clears the class flag |
| GridStrategies.AllReadsFailNoRows | easytrader/grid_strategies.py:92-101 | when all five clipboard reads raise, the empty payload is decoded; if the decoder rejects empty input, as pandas does, a `get` that does not raise returns no rows and leaves the flag set |
| GridStrategies.FlagStaysSet | easytrader/grid_strategies.py:154-158 | the flag starts set and stays set through any series of calls, so every later Copy/WMCopy call that finds no prompt raises |
| GridStrategies.ForegroundActions | easytrader/grid_strategies.py:62-72 | foregrounding performs at most one action |
| GridStrategies.ForegroundFacts | easytrader/grid_strategies.py:62-72 | foregrounding restores a minimised window and otherwise brings the window to the front; a failing call, or a failing minimised check, is swallowed and does nothing; at most one action is done, and only to the given window |
| GridStrategies.ForegroundCounts | easytrader/grid_strategies.py:62-72 | foregrounding neither checks for a popup nor clicks `Button2` |
| GridStrategies.SaveChecks | easytrader/grid_strategies.py:200-205 | there are exactly ten save-dialog checks |
| GridStrategies.SaveDialogPolls | easytrader/grid_strategies.py:200-205 | the dialog can be found only when polls remain, and the polls do something exactly when the counter is positive |
| GridStrategies.FirstAppeared | easytrader/grid_strategies.py:200-205 | finds the first check that finds the save dialog; every earlier check found none |
| GridStrategies.PollStep | easytrader/grid_strategies.py:200-205 | a check that finds no dialog is followed by a 0.2 s wait and the remaining polls, and does not change whether or where the dialog is first found |
| GridStrategies.SaveDialogPollsStop | easytrader/grid_strategies.py:200-205 | polling stops at the first check that finds the dialog; each poll starts with a check; no poll clicks `Button2` |
| GridStrategies.SaveDialogPollsCounts | easytrader/grid_strategies.py:200-205 | there is one check per poll, up to and including the first positive one, and one 0.2 s wait after each negative check |
| GridStrategies.NoSaveDialogPollsTenTimes | easytrader/grid_strategies.py:200-205 | when the dialog never appears: exactly 10 checks, each followed by a 0.2 s wait |
| GridStrategies.SaveStepsCounts | easytrader/grid_strategies.py:211-218 | after saving, the popup is checked for once, and `Button2` is clicked only when a popup exists |
| GridStrategies.SaveRequestCounts | easytrader/grid_strategies.py:194-205 | up to the save dialog: at most 10 popup checks and no `Button2` click |
| GridStrategies.XlsDismissal | easytrader/grid_strategies.py:194-220 | `Button2` is clicked exactly when a popup exists after saving; at most 11 popup checks; the path typed into the save dialog is the `mktemp` path the rows are read from; the rows are exactly the exported file's, and a failure to read it escapes; the Copy class flag is left as it was |
| GridStrategies.XlsOutcome | easytrader/grid_strategies.py:194-220 | Xls leaves the Copy class flag as it was, and the only error it lets escape is the failed read of the exported file |
| GridStrategies.CopyClassState.constructor | easytrader/grid_strategies.py:80 | the class flag starts set |
| GridStrategies.SetForeground | easytrader/grid_strategies.py:62-72 | foregrounding the given window, or the main window when none is given |
| GridStrategies.WaitForSaveDialog | easytrader/grid_strategies.py:200-205 | the loop performs exactly the polls of the specification |
| GridStrategies.CaptchaAttempt | easytrader/grid_strategies.py:115-141 | one loop pass does the attempt's capture and submission and reports whether the challenge was resolved |
| GridStrategies.RunCaptchaLoop | easytrader/grid_strategies.py:111-153 | the counted loop performs exactly the rounds of the specification and returns its `found` |
| GridStrategies.AnswerChallenge | easytrader/grid_strategies.py:111-155 | runs the loop, then clicks Cancel when it ended unresolved |
| GridStrategies.MeetChallenge | easytrader/grid_strategies.py:106-155 | with the flag set: looks for the prompt; answers it when shown, and raises when not |
| GridStrategies.ReadClipboardWithRetry | easytrader/grid_strategies.py:159-166 | the retry loop performs exactly the specified reads and returns the first text, or None |
| GridStrategies.RequestSave | easytrader/grid_strategies.py:195-205 | foregrounds the grid, presses Ctrl+S, then waits for the save dialog |
| GridStrategies.FinishSave | easytrader/grid_strategies.py:207-218 | foregrounds the dialog, saves under the temporary path, and dismisses a popup |
| GridStrategies.SaveAs | easytrader/grid_strategies.py:211-218 | types the path, presses Alt+S Alt+Y, and clicks `Button2` only when a popup exists |
| GridStrategies.GridStrategy.constructor | easytrader/grid_strategies.py:41-42 | a new strategy has no trader |
| GridStrategies.GridStrategy.SetTrader | easytrader/grid_strategies.py:44-45 | binds the trader |
| GridStrategies.GridStrategy.PassCaptcha | easytrader/grid_strategies.py:104-158 | runs the captcha protocol exactly when the shared class flag is set |
| GridStrategies.GridStrategy.GetClipboardData | easytrader/grid_strategies.py:103-166 | the captcha protocol, then the clipboard retry |
| GridStrategies.GridStrategy.FormatGridData | easytrader/grid_strategies.py:90-101 | returns the decoded rows; on a decode failure it sets the shared flag, and it never clears it |
| GridStrategies.GridStrategy.CopyGet | easytrader/grid_strategies.py:82-179 | Copy.get (lines 82-88) presses Ctrl+A Ctrl+C on the grid; WMCopy.get (lines 174-179) instead posts WM_COMMAND 0xE122 and waits 0.1 s. Both then fetch the clipboard data and decode it, and the trace, result and flag are those of the specification |
| GridStrategies.GridStrategy.XlsGet | easytrader/grid_strategies.py:194-220 | Xls.get: the save request, a temporary path, the save and dismissal, then the rows of the exported file |
| GridStrategies.GridStrategy.Get | easytrader/grid_strategies.py:56-60 | without a trader, `get` raises AttributeError and changes nothing; otherwise it behaves as its strategy's `get` |
| FastTrader.MenuDispatchRule | easytrader/custom/fast_universal_clienttrader.py:24-34 | an empty path raises IndexError; a one-entry path naming F1–F4 takes the first key it names (in the order F1 to F4), always with a 0.2 s pause; any other path goes to the menu tree unchanged, with the caller's `sleep` |
| FastTrader.MenuDispatch | easytrader/custom/fast_universal_clienttrader.py:24-34 | an empty path raises IndexError and nothing else does; a shortcut is one of F1–F4, for a one-entry path, with a 0.2 s pause; otherwise the superclass walks the same path with the caller's pause |
| FastTrader.BuyMenuShortcut | easytrader/custom/fast_universal_clienttrader.py:45-48 | the buy entry "买入[F1]" takes the F1 shortcut |
| FastTrader.SellMenuShortcut | easytrader/custom/fast_universal_clienttrader.py:52-56 | the sell entry "卖出[F2]" takes the F2 shortcut |
| FastTrader.QueryMenuShortcut | easytrader/custom/fast_universal_clienttrader.py:36-40 | the query entry "查询[F4]" takes the F4 shortcut |
| FastTrader.OrderCode | easytrader/custom/fast_universal_clienttrader.py:88 | `security[-6:]` is the last six characters, or the whole text when it is shorter |
| FastTrader.Quantity | easytrader/custom/fast_universal_clienttrader.py:89 | the quantity text is never empty |
| FastTrader.QuantityRoundTrip | easytrader/custom/fast_universal_clienttrader.py:89 | the quantity text reads back as `int(amount)`; for a non-negative amount it is the whole part |
| FastTrader.QuantityPlain | easytrader/custom/fast_universal_clienttrader.py:89 | the quantity text is digits and an optional minus sign, so it never opens a key group |
| FastTrader.TokenizeRender | easytrader/custom/fast_universal_clienttrader.py:93-95 | reading the text of a series of keys gives back those keys |
| FastTrader.DefaultPriceText | easytrader/custom/fast_universal_clienttrader.py:93-95 | the default-price string is the rendering of its keys around the code and the quantity |
| FastTrader.DefaultPriceTyped | easytrader/custom/fast_universal_clienttrader.py:93-95 | the only characters typed are the code, then the quantity |
| FastTrader.DefaultPriceReadable | easytrader/custom/fast_universal_clienttrader.py:93-95 | with a code without `{`, every key of the string reads back as itself |
| FastTrader.DefaultPriceKeysRead | easytrader/custom/fast_universal_clienttrader.py:86-95 | the string reads as BACKSPACE 6, pause, the code, TAB, TAB (past the price), the quantity, TAB, pause, ENTER |
| FastTrader.DefaultPriceKeys | easytrader/custom/fast_universal_clienttrader.py:86-95 | the keys first clear the code field (six backspaces and a pause), then type the code |
| FastTrader.TradeParamsText | easytrader/custom/fast_universal_clienttrader.py:107-111 | the trade-params string is the rendering of its keys around the code, the price and the quantity |
| FastTrader.TradeParamsTyped | easytrader/custom/fast_universal_clienttrader.py:107-111 | the only characters typed are the code, the price and the quantity, in that order |
| FastTrader.TradeParamsReadable | easytrader/custom/fast_universal_clienttrader.py:107-111 | with a code and price without `{`, every key of the string reads back as itself |
| FastTrader.TradeParamsKeysRead | easytrader/custom/fast_universal_clienttrader.py:97-111 | the string reads as BACKSPACE 6, pause, the code, TAB, pause, BACKSPACE 9, pause, the price, TAB, the quantity, TAB, pause, ENTER |
| FastTrader.TradeParamsKeys | easytrader/custom/fast_universal_clienttrader.py:97-111 | the keys first clear the code field (six backspaces and a pause), then type the code |
| FastTrader.MainChildIsEdit | easytrader/custom/fast_universal_clienttrader.py:114-116 | the child window looked up always has class "Edit", whatever class was asked for |
| FastTrader.MainChildWindow | easytrader/custom/fast_universal_clienttrader.py:114-116 | the child window has the requested control id and class `Edit` |
| FastTrader.SideShortcutIsDispatch | easytrader/custom/fast_universal_clienttrader.py:44-75 | each side's menu entry dispatches to that side's shortcut, which differs from the other side's |
| FastTrader.LastSwitchIsSide | easytrader/custom/fast_universal_clienttrader.py:44-75 | after the two focus switches, the last menu selected is the requested side, whatever follows without switching |
| FastTrader.DefaultPriceStepsKeepMenu | easytrader/custom/fast_universal_clienttrader.py:77-84 | entering a default-price order switches no menu |
| FastTrader.FastUniversalClientTrader.SwitchLeftMenus | easytrader/custom/fast_universal_clienttrader.py:24-34 | raises exactly on an empty path; otherwise records the dispatch of the path |
| FastTrader.FastUniversalClientTrader.FocusEntry | easytrader/custom/fast_universal_clienttrader.py:47-48 | switches to the other side's menu, then to the requested side's |
| FastTrader.FastUniversalClientTrader.Position | easytrader/custom/fast_universal_clienttrader.py:36-42 | takes the F4 shortcut, then reads the common grid and returns its rows |
| FastTrader.FastUniversalClientTrader.SubmitTrade | easytrader/custom/fast_universal_clienttrader.py:119-124 | does nothing |
| FastTrader.FastUniversalClientTrader.SetWithDefaultPriceAndSubmit | easytrader/custom/fast_universal_clienttrader.py:86-95 | types the default-price string into the main window |
| FastTrader.FastUniversalClientTrader.SetTradeParams | easytrader/custom/fast_universal_clienttrader.py:97-111 | types the trade-params string, with the price rounded for the code |
| FastTrader.FastUniversalClientTrader.TradeWithDefaultPrice | easytrader/custom/fast_universal_clienttrader.py:77-84 | types the order, submits it (a no-op), then handles the popups and returns their reply |
| FastTrader.FastUniversalClientTrader.OrderWithDefaultPrice | easytrader/custom/fast_universal_clienttrader.py:44-58 | focuses the side's form, then enters the default-price order; the side's menu is the last one selected |
| FastTrader.FastUniversalClientTrader.Order | easytrader/custom/fast_universal_clienttrader.py:60-75 | focuses the side's form, then delegates to the inherited `trade`; the side's menu is the last one selected |
| FastTrader.FastUniversalClientTrader.BuyWithDefaultPrice | easytrader/custom/fast_universal_clienttrader.py:44-50 | switches to sell and then to buy, then enters the default-price order |
| FastTrader.FastUniversalClientTrader.SellWithDefaultPrice | easytrader/custom/fast_universal_clienttrader.py:52-58 | switches to buy and then to sell, then enters the default-price order |
| FastTrader.FastUniversalClientTrader.Buy | easytrader/custom/fast_universal_clienttrader.py:60-67 | switches to sell and then to buy, then trades |
| FastTrader.FastUniversalClientTrader.Sell | easytrader/custom/fast_universal_clienttrader.py:69-75 | switches to buy and then to sell, then trades |

## Left out

- **pywinauto.** All UI calls (`type_keys`, `post_message`, `child_window`, `exists`,
  `wait_not`, `capture_as_image`, `click`, `set_focus`, `send_keys`, `ShowWindow`,
  `SetForegroundWindow`) are recorded as abstract actions. Whatever they answer is
  read from `Env` or `Client`.
- **pandas.** `pandas.read_csv` and `to_dict` are a decoder oracle that yields rows or
  fails. The `GRID_DTYPE` and tab-delimiter details are not modelled.
- **The captcha recogniser.** `captcha_recognize` is an oracle giving the text of
  attempt i.
- **Files and temporary paths.**
  - The image files are not modelled; only their names are recorded.
  - `tempfile.mktemp` is an oracle.
  - Opening the exported xls and decoding it from gbk is one oracle that yields rows
    or fails.
- **Time and logging.** Sleeps and `trader.wait` are recorded as `Wait` actions. Real
  time, `perf_clock` and logging are left out.
- **Exceptions other than these four.** The model covers these four exceptions:
  - AttributeError for a missing trader;
  - UnboundLocalError for `found`;
  - the failed read of the exported file;
  - IndexError from `_switch_left_menus` on an empty path (`PathIndexError`).

  These raising calls are not modelled:
  - a UI call raising an exception that the source does not catch;
  - `captcha_recognize` raising: `grid_strategies.py:121-122` would let the exception
    propagate, but `Env.recognize` always returns a text;
  - `int(amount)` on an infinite or NaN float, which raises OverflowError or
    ValueError: `Trunc` works on `real`, which has neither value.
- **Exception objects.** The `except` clauses are modelled by outcome only: dialog gone
  or not, read raised or not.
- **The superclasses (`UniversalClientTrader` and, above it, `ClientTrader`).** Their `_switch_left_menus`,
  `_switch_left_menus_by_shortcut`, `trade`, `_get_grid_data` and `_handle_pop_dialogs`
  are not part of this model. Calls to them are recorded as actions, and their replies
  come from `Client`.
- **Price rounding.** `easyutils.round_price_by_code` is external and works on floats.
  The text of the rounded price comes from `Client.roundPrice`.
- **`lru_cache`.** The caching on `_get_main_child_window` does not change the window
  returned, so it is left out.
- **`broker_type`.** It only returns the constant "universal", so it is left out.
- FastTrader.Quantity: `amount` is modelled as a real number. `int(amount)` on a string
  amount is not modelled.
- FastTrader.DefaultPriceKeysRead: the send-keys reader is simplified. It treats `{…}`
  groups and plain characters only, not pywinauto's modifier characters (`+ ^ % ~ ( )`)
  or its `{{}` escapes. So the lemma requires a code without `{`. The quantity never
  contains `{`, as QuantityPlain proves. The reader also types spaces, tabs and
  newlines as themselves. `type_keys` drops them, because `with_spaces`, `with_tabs`
  and `with_newlines` default to False. So for a code containing whitespace, the lemma
  claims characters that pywinauto would not type.
- FastTrader.TradeParamsKeysRead: the same simplified reader. It requires a code and a
  rounded price without `{`. As above, whitespace in the code or the price is typed by
  the reader but dropped by `type_keys`.
- GridStrategies.CopyOutcome: `Env.decode` is an unconstrained oracle, and nothing
  forces `decode("")` to fail. So after five failed clipboard reads, the model admits a
  `Rows` outcome that pandas, which raises on empty input, never produces.
  AllReadsFailNoRows proves the intended result (no rows, flag set) under the
  assumption that `decode("")` fails.
- GridStrategies.GridStrategy.Get: `IGridStrategy` and `BaseStrategy` are abstract base
  classes. The three concrete strategies are one class with a `kind` tag, because
  traits are not used here.
