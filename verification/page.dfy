/** The page state the script touches: the notification box (`showMessage`,
    index.js:15-24) and the startup block that generates a key and shows it,
    or reports the failure (index.js:44-60). A DOM element is reduced to its
    text and its class list. */
module Page {
  import opened Results
  import opened KeyGen

  /** Text and class list of one DOM element. */
  datatype Element = Element(text: string, classes: set<string>)

  const Hidden: string := "hidden"
  const BgRed: string := "bg-red-100"
  const TextRed: string := "text-red-800"
  const BgGreen: string := "bg-green-100"
  const TextGreen: string := "text-green-800"

  /** The message type that selects the red styling; every other type is green. */
  const ErrorType: string := "error"

  /** The classes `showMessage` removes before styling (index.js:18). */
  const ResetClasses: set<string> := {Hidden, BgRed, TextRed, BgGreen, TextGreen}

  /** What the key field shows when generation fails (index.js:59). */
  const FailureText: string := "GENERATION FAILED"

  /** The notification shown when generation fails (index.js:57). */
  const GenerationFailedMessage: string :=
    "Gagal membuat API Key. Pastikan browser Anda mendukung Web Crypto API."

  /** The colour pair `showMessage` adds for a message type (index.js:19-23). */
  function StyleFor(kind: string): set<string> {
    if kind == ErrorType then {BgRed, TextRed} else {BgGreen, TextGreen}
  }

  /** `showMessage(message, kind)` applied to the alert box: its text becomes
      the message, it is shown, and it carries exactly one colour pair, red for
      `"error"` and green for anything else. No other class changes. */
  function ShowMessage(alertBox: Element, message: string, kind: string): (r: Element)
    ensures r.text == message
    ensures Hidden !in r.classes
    ensures BgRed in r.classes <==> kind == ErrorType
    ensures TextRed in r.classes <==> kind == ErrorType
    ensures BgGreen in r.classes <==> kind != ErrorType
    ensures TextGreen in r.classes <==> kind != ErrorType
    ensures forall c :: c !in ResetClasses ==> (c in r.classes <==> c in alertBox.classes)
  {
    Element(message, alertBox.classes - ResetClasses + StyleFor(kind))
  }

  /** Only the latest call matters: the reset at index.js:18 wipes whatever
      styling an earlier message left. */
  lemma ShowMessageLatestWins(alertBox: Element, m1: string, k1: string, m2: string, k2: string)
    ensures ShowMessage(ShowMessage(alertBox, m1, k1), m2, k2) == ShowMessage(alertBox, m2, k2)
  {
  }

  /** The three elements of the page the script uses. */
  datatype Page = Page(resultArea: Element, keyValue: Element, alertBox: Element)

  /** `classList.remove('hidden')`. */
  function Reveal(e: Element): (r: Element)
    ensures r.text == e.text
    ensures Hidden !in r.classes
    ensures forall c :: c != Hidden ==> (c in r.classes <==> c in e.classes)
  {
    e.(classes := e.classes - {Hidden})
  }

  /** The startup block (index.js:44-60): generate a key; on success show it in
      the key field and reveal the result area; on failure show the error
      notification, reveal the result area and put `FailureText` in the key field. */
  function Startup(page: Page, crypto: Crypto): (r: Page)
    ensures Hidden !in r.resultArea.classes
    ensures forall c :: c != Hidden ==> (c in r.resultArea.classes <==> c in page.resultArea.classes)
    ensures r.resultArea.text == page.resultArea.text
    ensures r.keyValue.classes == page.keyValue.classes
    ensures r.keyValue.text != FailureText ==> KeyPrefix <= r.keyValue.text
    ensures r.alertBox != page.alertBox ==> r.keyValue.text == FailureText
  {
    match TryGenerateApiKey(crypto)
    case Ok(key) =>
      page.(keyValue := page.keyValue.(text := key),
            resultArea := Reveal(page.resultArea))
    case Err(_) =>
      var alertBox := ShowMessage(page.alertBox, GenerationFailedMessage, ErrorType);
      page.(alertBox := alertBox,
            resultArea := Reveal(page.resultArea),
            keyValue := page.keyValue.(text := FailureText))
  }

  /** On success the key field shows the generated key, the result area is
      visible, and the notification box is untouched. */
  lemma StartupSuccess(page: Page, uuid: string, block: RandomBlock)
    ensures var r := Startup(page, Crypto(Some(uuid), Some(block)));
      && r.keyValue.text == GenerateApiKey(uuid, block)
      && Hidden !in r.resultArea.classes
      && r.alertBox == page.alertBox
  {
  }

  /** On failure of either platform call, the key field reads
      `"GENERATION FAILED"`, the result area is visible, and the notification
      box shows the failure message with the red styling. */
  lemma StartupFailure(page: Page, crypto: Crypto)
    requires crypto.randomUuid.None? || crypto.randomValues.None?
    ensures var r := Startup(page, crypto);
      && r.keyValue.text == FailureText
      && Hidden !in r.resultArea.classes
      && r.alertBox.text == GenerationFailedMessage
      && Hidden !in r.alertBox.classes
      && BgRed in r.alertBox.classes && TextRed in r.alertBox.classes
      && BgGreen !in r.alertBox.classes && TextGreen !in r.alertBox.classes
  {
  }

  /** The key field tells the two outcomes apart: it reads `"GENERATION FAILED"`
      exactly when generation failed, since every key starts with `"API_KEY_"`. */
  lemma StartupOutcomeDistinguishable(page: Page, crypto: Crypto)
    ensures Startup(page, crypto).keyValue.text == FailureText
        <==> TryGenerateApiKey(crypto).Err?
  {
  }

  /** With the platform working as specified (a UUID in textual form), the key
      field shows a well-formed 88-character key. */
  lemma StartupShowsWellFormedKey(page: Page, uuid: string, block: RandomBlock)
    requires Uuid.IsUuidText(uuid)
    ensures IsWellFormedKey(Startup(page, Crypto(Some(uuid), Some(block))).keyValue.text)
  {
  }
}
