/**
 * The contact notifier of lib/telegram.ts: the HTML text built from a
 * contact submission, and the `{success, message}` result that each call to
 * the bot API reports once the outcome of its HTTP request is known.
 *
 * The request itself is not modelled: its outcome is an input
 * (`FetchOutcome`), either a thrown exception or a response with the `ok`
 * flag and the JSON body that the code reads.
 */
module Telegram {
  import opened Options
  import opened Segments

  /** `ContactFormData`: `phone` may be absent; `lang` is whatever the caller passes. */
  datatype ContactFormData = ContactFormData(name: string, email: string, phone: Option<string>, message: string, lang: string)

  /** One locale's label set. */
  datatype Labels = Labels(newContact: string, name: string, email: string, phone: string, message: string, from: string)

  // The label strings are kept exactly as lib/telegram.ts stores them: the
  // file holds the UTF-8 bytes of the intended text read back as Mac Roman,
  // so "\U{F8FF}\U{FC}\U{DC}\U{EF}" stands for the "NEW" emoji U+1F195, and
  // the Russian labels for "Новый запрос на контакт", "Имя", "Телефон",
  // "Сообщение" and "От кого".

  /** The header's leading emoji and space, shared by the three header labels. */
  const NewBadge := "\U{F8FF}\U{FC}\U{DC}\U{EF} "

  const UzLabels := Labels(NewBadge + "Yangi aloqa so'rovi", "Ism", "Email", "Telefon", "Xabar", "Kimdan")

  const RuLabels := Labels(
    NewBadge + "\U{2013}\U{F9}\U{2013}\U{E6}\U{2013}\U{2264}\U{2014}\U{E3}\U{2013}\U{3C0} \U{2013}\U{2211}\U{2013}\U{221E}\U{2013}\U{F8}\U{2014}\U{C4}\U{2013}\U{E6}\U{2014}\U{C5}"
    + " \U{2013}\U{3A9}\U{2013}\U{221E} \U{2013}\U{222B}\U{2013}\U{E6}\U{2013}\U{3A9}\U{2014}\U{C7}\U{2013}\U{221E}\U{2013}\U{222B}\U{2014}\U{C7}",
    "\U{2013}\U{F2}\U{2013}\U{BA}\U{2014}\U{E8}",
    "Email",
    "\U{2013}\U{A2}\U{2013}\U{B5}\U{2013}\U{AA}\U{2013}\U{B5}\U{2014}\U{D1}\U{2013}\U{E6}\U{2013}\U{3A9}",
    "\U{2013}\U{B0}\U{2013}\U{E6}\U{2013}\U{E6}\U{2013}\U{B1}\U{2014}\U{E2}\U{2013}\U{B5}\U{2013}\U{3A9}\U{2013}\U{220F}\U{2013}\U{B5}",
    "\U{2013}\U{FB}\U{2014}\U{C7} \U{2013}\U{222B}\U{2013}\U{E6}\U{2013}\U{2265}\U{2013}\U{E6}")

  const EnLabels := Labels(NewBadge + "New Contact Request", "Name", "Email", "Phone", "Message", "From")

  /** The keys the label table defines itself. */
  const LabelLocales: set<string> := {"uz", "ru", "en"}

  /**
   * The properties every JavaScript object literal inherits from
   * `Object.prototype`; indexing the label table with one of them finds a
   * truthy value that is not a label set.
   */
  const ObjectPrototypeKeys: set<string> := {
    "constructor", "__proto__", "toString", "toLocaleString", "valueOf", "hasOwnProperty",
    "isPrototypeOf", "propertyIsEnumerable", "__defineGetter__", "__defineSetter__",
    "__lookupGetter__", "__lookupSetter__"}

  /** The label set for `lang`: the table's own entry, or the English one for any other value. */
  function LabelsFor(lang: string): (labels: Labels)
    ensures lang == "uz" ==> labels == UzLabels
    ensures lang == "ru" ==> labels == RuLabels
    ensures lang !in {"uz", "ru"} ==> labels == EnLabels
  {
    if lang == "uz" then UzLabels
    else if lang == "ru" then RuLabels
    else EnLabels
  }

  /**
   * `labels[lang] || labels.en` as JavaScript evaluates it: an inherited key
   * finds a function (or, for "__proto__", `Object.prototype`), which is
   * truthy, so the English fallback is skipped; its label properties are
   * `undefined` and print as "undefined", except `name`, which on a function
   * is the function's own name ("Object" for "constructor").
   */
  function LookupLabelsAsWritten(lang: string): Labels
  {
    if lang in LabelLocales then LabelsFor(lang)
    else if lang in ObjectPrototypeKeys then
      var fnName := if lang == "constructor" then "Object" else if lang == "__proto__" then "undefined" else lang;
      Labels("undefined", fnName, "undefined", "undefined", "undefined", "undefined")
    else EnLabels
  }

  /** `toUpperCase` on one character, for the ASCII letters only. */
  function UpperAscii(c: char): char
  {
    if 'a' <= c <= 'z' then (c as int - 32) as char else c
  }

  /** `toUpperCase` on a string, ASCII letters only; everything else is kept. */
  function ToUpperAscii(s: string): (upper: string)
    ensures |upper| == |s|
    ensures forall i :: 0 <= i < |s| ==> upper[i] == UpperAscii(s[i])
  {
    if s == [] then [] else [UpperAscii(s[0])] + ToUpperAscii(s[1..])
  }

  /** `if (data.phone)`: a phone number that is present and not empty. */
  predicate HasPhone(data: ContactFormData)
  {
    data.phone.Some? && data.phone.value != ""
  }

  /** The successive appends of `formatMessage`, with a given label set. */
  function FormatWith(labels: Labels, data: ContactFormData): string
  {
    "<b>" + labels.newContact + "</b>" + "\n\n"
    + "<b>" + labels.name + ":</b> " + data.name + "\n"
    + "<b>" + labels.email + ":</b> " + data.email + "\n"
    + (if HasPhone(data) then "<b>" + labels.phone + ":</b> " + data.phone.value + "\n" else "")
    + "\n" + "<b>" + labels.message + ":</b>" + "\n" + data.message + "\n\n"
    + "<b>" + labels.from + ":</b> " + ToUpperAscii(data.lang)
  }

  /** `formatMessage`, with the label lookup falling back to English for every unknown `lang`. */
  function FormatMessage(data: ContactFormData): string
  {
    FormatWith(LabelsFor(data.lang), data)
  }

  /** `formatMessage` with the label lookup exactly as JavaScript evaluates it. */
  function FormatMessageAsWritten(data: ContactFormData): string
  {
    FormatWith(LookupLabelsAsWritten(data.lang), data)
  }

  /**
   * The lines of the message, one by one: the header, a blank line, name,
   * email, the phone only when there is one, a blank line, the message
   * label, the message, a blank line and the sender's locale.
   */
  function MessageLines(labels: Labels, data: ContactFormData): seq<string>
  {
    ["<b>" + labels.newContact + "</b>", "",
     "<b>" + labels.name + ":</b> " + data.name,
     "<b>" + labels.email + ":</b> " + data.email]
    + (if HasPhone(data) then ["<b>" + labels.phone + ":</b> " + data.phone.value] else [])
    + ["", "<b>" + labels.message + ":</b>", data.message, "",
       "<b>" + labels.from + ":</b> " + ToUpperAscii(data.lang)]
  }

  /** The message is its lines joined with newlines, whatever the fields hold. */
  lemma FormatIsJoinedLines(labels: Labels, data: ContactFormData)
    ensures FormatWith(labels, data) == Join(MessageLines(labels, data), '\n')
  {
    var phone := if HasPhone(data) then ["<b>" + labels.phone + ":</b> " + data.phone.value] else [];
    var phonePart := if HasPhone(data) then "<b>" + labels.phone + ":</b> " + data.phone.value + "\n" else "";
    assert phonePart == if phone == [] then "" else phone[0] + "\n";
    JoinShape("<b>" + labels.newContact + "</b>",
              "<b>" + labels.name + ":</b> " + data.name,
              "<b>" + labels.email + ":</b> " + data.email,
              phone,
              "<b>" + labels.message + ":</b>",
              data.message,
              "<b>" + labels.from + ":</b> " + ToUpperAscii(data.lang));
    Regroup("<b>", "</b>", ":</b> ", ":</b>", "\n", "\n\n",
            labels.newContact, labels.name, data.name, labels.email, data.email, phonePart,
            labels.message, data.message, labels.from, ToUpperAscii(data.lang));
  }

  /** The appends of `FormatWith` regrouped line by line, on abstract fragments. */
  lemma Regroup(open: string, close: string, colon: string, colonBare: string, nl: string, nn: string,
                newContact: string, nameLabel: string, name: string, emailLabel: string, email: string, phonePart: string,
                messageLabel: string, message: string, fromLabel: string, tag: string)
    ensures open + newContact + close + nn
      + open + nameLabel + colon + name + nl
      + open + emailLabel + colon + email + nl
      + phonePart
      + nl + open + messageLabel + colonBare + nl + message + nn
      + open + fromLabel + colon + tag
      == (open + newContact + close) + nn + (open + nameLabel + colon + name) + nl
         + (open + emailLabel + colon + email) + nl + phonePart + nl + (open + messageLabel + colonBare)
         + nl + message + nn + (open + fromLabel + colon + tag)
  {
  }

  /** The join of the message's ten or eleven lines, written out. */
  lemma JoinShape(l0: string, l2: string, l3: string, phone: seq<string>, l6: string, l7: string, l9: string)
    requires |phone| <= 1
    ensures Join([l0, "", l2, l3] + phone + ["", l6, l7, "", l9], '\n')
      == l0 + "\n\n" + l2 + "\n" + l3 + "\n" + (if phone == [] then "" else phone[0] + "\n") + "\n" + l6 + "\n" + l7 + "\n\n" + l9
  {
    if phone == [] {
      JoinShapeWithoutPhone(l0, l2, l3, l6, l7, l9);
      assert [l0, "", l2, l3] + phone + ["", l6, l7, "", l9] == [l0, "", l2, l3] + ["", l6, l7, "", l9];
    } else {
      JoinShapeWithPhone(l0, l2, l3, phone, l6, l7, l9);
    }
  }

  lemma JoinShapeWithoutPhone(l0: string, l2: string, l3: string, l6: string, l7: string, l9: string)
    ensures Join([l0, "", l2, l3] + ["", l6, l7, "", l9], '\n')
      == l0 + "\n\n" + l2 + "\n" + l3 + "\n" + "" + "\n" + l6 + "\n" + l7 + "\n\n" + l9
  {
    JoinHead(l0, l2, l3);
    JoinTail(l6, l7, l9);
    JoinAppend([l0, "", l2, l3], ["", l6, l7, "", l9], '\n');
    RegroupLines(l0, l2, l3, "", l6, l7, l9, "\n", "\n\n");
  }

  lemma JoinShapeWithPhone(l0: string, l2: string, l3: string, phone: seq<string>, l6: string, l7: string, l9: string)
    requires |phone| == 1
    ensures Join([l0, "", l2, l3] + phone + ["", l6, l7, "", l9], '\n')
      == l0 + "\n\n" + l2 + "\n" + l3 + "\n" + (phone[0] + "\n") + "\n" + l6 + "\n" + l7 + "\n\n" + l9
  {
    var head := [l0, "", l2, l3];
    var tail := ["", l6, l7, "", l9];
    JoinHead(l0, l2, l3);
    JoinTail(l6, l7, l9);
    JoinAppend(head, phone, '\n');
    JoinAppend(head + phone, tail, '\n');
    assert Join(phone, '\n') == phone[0];
    RegroupLines(l0, l2, l3, phone[0], l6, l7, l9, "\n", "\n\n");
  }

  /** The joined head, one middle line and the joined tail, regrouped as the appends group them. */
  lemma RegroupLines(l0: string, l2: string, l3: string, p: string, l6: string, l7: string, l9: string, nl: string, nn: string)
    ensures (l0 + nn + l2 + nl + l3) + nl + p + nl + (nl + l6 + nl + l7 + nn + l9)
         == l0 + nn + l2 + nl + l3 + nl + (p + nl) + nl + l6 + nl + l7 + nn + l9
    ensures (l0 + nn + l2 + nl + l3) + nl + (nl + l6 + nl + l7 + nn + l9)
         == l0 + nn + l2 + nl + l3 + nl + "" + nl + l6 + nl + l7 + nn + l9
  {
  }

  lemma JoinHead(l0: string, l2: string, l3: string)
    ensures Join([l0, "", l2, l3], '\n') == l0 + "\n\n" + l2 + "\n" + l3
  {
    JoinTwoThen(l0, "", [l2, l3], '\n');
    JoinTwoThen(l2, l3, [], '\n');
    assert [l0, "", l2, l3] == [l0, ""] + [l2, l3];
    assert [l2, l3] == [l2, l3] + [];
  }

  lemma JoinTail(l6: string, l7: string, l9: string)
    ensures Join(["", l6, l7, "", l9], '\n') == "\n" + l6 + "\n" + l7 + "\n\n" + l9
  {
    JoinTwoThen("", l6, [l7, "", l9], '\n');
    JoinTwoThen(l7, "", [l9], '\n');
    assert ["", l6, l7, "", l9] == ["", l6] + [l7, "", l9];
    assert [l7, "", l9] == [l7, ""] + [l9];
  }

  /** No newline in a label set. */
  predicate LabelsOnOneLine(labels: Labels)
  {
    '\n' !in labels.newContact && '\n' !in labels.name && '\n' !in labels.email
    && '\n' !in labels.phone && '\n' !in labels.message && '\n' !in labels.from
  }

  /** None of the three label sets holds a newline. */
  lemma LabelSetsOnOneLine()
    ensures LabelsOnOneLine(UzLabels) && LabelsOnOneLine(RuLabels) && LabelsOnOneLine(EnLabels)
  {
    UzOnOneLine();
    RuOnOneLine();
    EnOnOneLine();
  }

  // The label facts are split one lemma per label set, and one per field for
  // the Russian set: checking a long non-ASCII literal for a newline is costly
  // for the solver, and one member holding all of them runs out of resource.

  lemma UzOnOneLine() ensures LabelsOnOneLine(UzLabels) { }
  lemma EnOnOneLine() ensures LabelsOnOneLine(EnLabels) { }

  lemma RuOnOneLine()
    ensures LabelsOnOneLine(RuLabels)
  {
    RuHeaderOnOneLine();
    RuNameOnOneLine();
    RuPhoneOnOneLine();
    RuMessageOnOneLine();
    RuFromOnOneLine();
  }

  lemma RuHeaderOnOneLine() ensures '\n' !in RuLabels.newContact { }
  lemma RuNameOnOneLine() ensures '\n' !in RuLabels.name { }
  lemma RuPhoneOnOneLine() ensures '\n' !in RuLabels.phone { }
  lemma RuMessageOnOneLine() ensures '\n' !in RuLabels.message { }
  lemma RuFromOnOneLine() ensures '\n' !in RuLabels.from { }

  /** No newline in any field of a submission. */
  predicate FieldsOnOneLine(data: ContactFormData)
  {
    '\n' !in data.name && '\n' !in data.email && '\n' !in data.message && '\n' !in data.lang
    && (data.phone.Some? ==> '\n' !in data.phone.value)
  }

  /**
   * When no field holds a newline, splitting the message on newlines gives
   * back exactly its lines, in template order.
   */
  lemma LinesRecovered(data: ContactFormData)
    requires FieldsOnOneLine(data)
    ensures Split(FormatMessage(data), '\n') == MessageLines(LabelsFor(data.lang), data)
  {
    var labels := LabelsFor(data.lang);
    LabelSetsOnOneLine();
    FormatIsJoinedLines(labels, data);
    var lines := MessageLines(labels, data);
    assert '\n' !in ToUpperAscii(data.lang);
    assert NoSeparator(lines, '\n');
    SplitJoin(lines, '\n');
  }

  /**
   * For every submission, the message has a phone line exactly when a
   * non-empty phone is given, right after the email line and with the
   * number verbatim.
   */
  lemma PhoneLineInLines(labels: Labels, data: ContactFormData)
    ensures var lines := MessageLines(labels, data);
      (|lines| == 10 <==> HasPhone(data)) && (|lines| == 9 <==> !HasPhone(data))
      && (HasPhone(data) ==> lines[4] == "<b>" + labels.phone + ":</b> " + data.phone.value)
  {
  }

  /** An empty phone gives the same text as no phone at all. */
  lemma EmptyPhoneIsNoPhone(data: ContactFormData)
    ensures FormatMessage(data.(phone := Some(""))) == FormatMessage(data.(phone := None))
  {
  }

  /**
   * When no field holds a newline, the phone rule holds for the lines read
   * back from the text itself: 10 lines exactly when a non-empty phone is
   * given, with the phone line after the email line.
   */
  lemma PhoneLineIffPhoneGiven(data: ContactFormData)
    requires FieldsOnOneLine(data)
    ensures var lines := Split(FormatMessage(data), '\n');
      (|lines| == 10 <==> HasPhone(data)) && (|lines| == 9 <==> !HasPhone(data))
      && (HasPhone(data) ==> lines[4] == "<b>" + LabelsFor(data.lang).phone + ":</b> " + data.phone.value)
  {
    LinesRecovered(data);
    PhoneLineInLines(LabelsFor(data.lang), data);
  }

  /** The first three lines of the message, each with its newline. */
  function Opening(labels: Labels, data: ContactFormData): string
  {
    "<b>" + labels.newContact + "</b>" + "\n\n"
    + "<b>" + labels.name + ":</b> " + data.name + "\n"
    + "<b>" + labels.email + ":</b> " + data.email + "\n"
  }

  /** The last line of the message: the bold "from" label and the upper-cased `lang`. */
  function Closing(labels: Labels, data: ContactFormData): string
  {
    "<b>" + labels.from + ":</b> " + ToUpperAscii(data.lang)
  }

  /** The message is its opening, then the optional phone line and the message section, then its closing. */
  lemma FormatFrame(labels: Labels, data: ContactFormData)
    ensures exists middle :: FormatWith(labels, data) == Opening(labels, data) + middle + Closing(labels, data)
  {
    var phonePart := if HasPhone(data) then "<b>" + labels.phone + ":</b> " + data.phone.value + "\n" else "";
    var middle := phonePart + "\n" + "<b>" + labels.message + ":</b>" + "\n" + data.message + "\n\n";
    RegroupFrame("<b>", "</b>", ":</b> ", ":</b>", "\n", "\n\n",
                 labels.newContact, labels.name, data.name, labels.email, data.email, phonePart,
                 labels.message, data.message, labels.from, ToUpperAscii(data.lang));
    assert FormatWith(labels, data) == Opening(labels, data) + middle + Closing(labels, data);
  }

  /** The appends of `FormatWith` grouped into opening, middle and closing, on abstract fragments. */
  lemma RegroupFrame(open: string, close: string, colon: string, colonBare: string, nl: string, nn: string,
                     newContact: string, nameLabel: string, name: string, emailLabel: string, email: string, phonePart: string,
                     messageLabel: string, message: string, fromLabel: string, tag: string)
    ensures open + newContact + close + nn
      + open + nameLabel + colon + name + nl
      + open + emailLabel + colon + email + nl
      + phonePart
      + nl + open + messageLabel + colonBare + nl + message + nn
      + open + fromLabel + colon + tag
      == (open + newContact + close + nn + open + nameLabel + colon + name + nl + open + emailLabel + colon + email + nl)
         + (phonePart + nl + open + messageLabel + colonBare + nl + message + nn)
         + (open + fromLabel + colon + tag)
  {
  }

  /** A string that is `a + middle + b` starts with `a` and ends with `b`. */
  lemma Framed(text: string, a: string, middle: string, b: string)
    requires text == a + middle + b
    ensures a <= text && |a| + |b| <= |text| && text[|text| - |b|..] == b
  {
    assert text[..|a|] == a;
  }

  /** With any label set, the text starts with its opening and ends with its closing. */
  lemma OpensAndCloses(labels: Labels, data: ContactFormData)
    ensures var text := FormatWith(labels, data);
      var closing := Closing(labels, data);
      Opening(labels, data) <= text && |Opening(labels, data)| + |closing| <= |text|
      && text[|text| - |closing|..] == closing
  {
    FormatFrame(labels, data);
    var middle :| FormatWith(labels, data) == Opening(labels, data) + middle + Closing(labels, data);
    Framed(FormatWith(labels, data), Opening(labels, data), middle, Closing(labels, data));
  }

  /**
   * For every submission: the text opens with the bold header, then the name
   * line and the email line with the values verbatim, and closes with the
   * bold "from" label and the upper-cased raw `lang`.
   */
  lemma MessageFrame(data: ContactFormData)
    ensures var labels := LabelsFor(data.lang);
      var text := FormatMessage(data);
      var closing := Closing(labels, data);
      Opening(labels, data) <= text && |Opening(labels, data)| + |closing| <= |text|
      && text[|text| - |closing|..] == closing
  {
    OpensAndCloses(LabelsFor(data.lang), data);
  }

  /** An unknown `lang` gets the English labels but its own upper-cased value in the "from" line. */
  lemma UnknownLangKeepsRawTag(data: ContactFormData)
    requires data.lang == "de"
    ensures Closing(LabelsFor(data.lang), data) == "<b>" + "From" + ":</b> " + "DE"
    ensures Opening(LabelsFor(data.lang), data) == Opening(EnLabels, data)
  {
    assert ToUpperAscii("de") == [UpperAscii('d'), UpperAscii('e')];
  }

  /**
   * Field values are inserted without escaping, so the text does not tell
   * where a field ends: a name that carries on with a line shaped like the
   * email line gives the same text as the submission whose email starts
   * with that line.
   */
  lemma FieldsAreNotDelimited(data: ContactFormData, y: string)
    ensures var labels := LabelsFor(data.lang);
      var a := data.(name := data.name + ("\n" + "<b>" + labels.email + ":</b> " + y));
      var b := data.(email := y + "\n" + "<b>" + labels.email + ":</b> " + data.email);
      a != b && FormatMessage(a) == FormatMessage(b)
  {
    var labels := LabelsFor(data.lang);
    var a := data.(name := data.name + ("\n" + "<b>" + labels.email + ":</b> " + y));
    var b := data.(email := y + "\n" + "<b>" + labels.email + ":</b> " + data.email);
    assert |a.name| > |b.name|;
    var phonePart := if HasPhone(data) then "<b>" + labels.phone + ":</b> " + data.phone.value + "\n" else "";
    ShiftBoundary("<b>", "</b>", ":</b> ", ":</b>", "\n", "\n\n",
                  labels.newContact, labels.name, data.name, labels.email, y, data.email, phonePart,
                  labels.message, data.message, labels.from, ToUpperAscii(data.lang));
  }

  /** Moving the boundary between name and email: the same fragments in the same order. */
  lemma ShiftBoundary(open: string, close: string, colon: string, colonBare: string, nl: string, nn: string,
                      newContact: string, nameLabel: string, x: string, emailLabel: string, y: string, z: string,
                      phonePart: string, messageLabel: string, message: string, fromLabel: string, tag: string)
    ensures open + newContact + close + nn
      + open + nameLabel + colon + (x + (nl + open + emailLabel + colon + y)) + nl
      + open + emailLabel + colon + z + nl
      + phonePart
      + nl + open + messageLabel + colonBare + nl + message + nn
      + open + fromLabel + colon + tag
      == open + newContact + close + nn
      + open + nameLabel + colon + x + nl
      + open + emailLabel + colon + (y + nl + open + emailLabel + colon + z) + nl
      + phonePart
      + nl + open + messageLabel + colonBare + nl + message + nn
      + open + fromLabel + colon + tag
  {
  }

  /** Outside the inherited keys, the lookup as written and the corrected one give the same text. */
  lemma AsWrittenAgreesOutsidePrototypeKeys(data: ContactFormData)
    requires data.lang !in ObjectPrototypeKeys
    ensures FormatMessageAsWritten(data) == FormatMessage(data)
  {
  }

  /**
   * With `lang` "constructor" the text as written opens with the header
   * "undefined" and the name label "Object" instead of the English labels.
   */
  lemma PrototypeKeyBreaksLabels(data: ContactFormData)
    requires data.lang == "constructor"
    ensures Opening(Labels("undefined", "Object", "undefined", "undefined", "undefined", "undefined"), data) <= FormatMessageAsWritten(data)
    ensures Opening(EnLabels, data) <= FormatMessage(data)
    ensures FormatMessageAsWritten(data) != FormatMessage(data)
  {
    var broken := Labels("undefined", "Object", "undefined", "undefined", "undefined", "undefined");
    assert LookupLabelsAsWritten(data.lang) == broken;
    assert LabelsFor(data.lang) == EnLabels;
    var w := FormatWith(broken, data);
    var c := FormatWith(EnLabels, data);
    assert Opening(broken, data) <= w by {
      OpensAndCloses(broken, data);
    }
    assert Opening(EnLabels, data) <= c by {
      OpensAndCloses(EnLabels, data);
    }
    assert w != c by {
      HeaderStart(broken, data);
      HeaderStart(EnLabels, data);
    }
  }

  /** The fourth character of the text, right after "<b>", is the header label's first. */
  lemma HeaderStart(labels: Labels, data: ContactFormData)
    requires labels.newContact != ""
    ensures |FormatWith(labels, data)| > 3 && FormatWith(labels, data)[3] == labels.newContact[0]
  {
    OpensAndCloses(labels, data);
    assert Opening(labels, data)[3] == labels.newContact[0];
  }

  /** The JSON body of `sendMessage`, whatever `fetch` was given. */
  datatype SendMessageRequest = SendMessageRequest(
    chatId: string, text: string, parseMode: string, disableWebPagePreview: bool, disableNotification: bool)

  /**
   * The body `sendToTelegram` posts to the group: the formatted text in HTML
   * mode, link previews off, notification sound on. Every submission gets
   * one: nothing here checks the required fields.
   */
  function SendMessageBody(groupId: string, data: ContactFormData): (request: SendMessageRequest)
    ensures request.chatId == groupId && request.parseMode == "HTML"
    ensures request.text == FormatMessage(data)
    ensures request.disableWebPagePreview && !request.disableNotification
    ensures Split(request.text, '\n') == MessageLines(LabelsFor(data.lang), data) <== FieldsOnOneLine(data)
  {
    if FieldsOnOneLine(data) then LinesRecovered(data); SendMessageRequest(groupId, FormatMessage(data), "HTML", true, false)
    else SendMessageRequest(groupId, FormatMessage(data), "HTML", true, false)
  }

  /**
   * What `response.json()` yields. Any JSON value that is neither an object
   * nor null reads as an object with none of these fields.
   */
  datatype JsonBody =
    | Unparseable
    | JsonNull
    | JsonObject(errorCode: Option<int>, description: Option<string>, result: Option<string>)

  /** How an awaited `fetch` ended. */
  datatype FetchOutcome = Threw | Responded(ok: bool, body: JsonBody)

  /** `{ success, message }`. */
  datatype SendResult = SendResult(success: bool, message: string)

  /** `{ success, data?, message }`; `data` is the body's `result` field, kept as its text. */
  datatype InfoResult = InfoResult(success: bool, data: Option<string>, message: string)

  /** `errorData.description || 'Unknown error'`. */
  function DescriptionOrUnknown(description: Option<string>): (text: string)
    ensures text != ""
    ensures description.Some? && description.value != "" ==> text == description.value
    ensures description.None? || description.value == "" ==> text == "Unknown error"
  {
    match description
    case Some(d) => if d != "" then d else "Unknown error"
    case None => "Unknown error"
  }

  const SentMessage := "Message sent successfully"
  const NotMemberMessage := "Bot is not a member of the group"
  const InvalidRequestMessage := "Invalid request to API"
  const RateLimitMessage := "Rate limit exceeded, please try again later"
  const ApiErrorPrefix := "API error: "
  const SendNetworkError := "Network error while sending message"

  /**
   * `sendToTelegram` once the POST has an outcome. A non-ok response is
   * classified by the body's `error_code`, not by the HTTP status. Reading a
   * property of a `null` body throws, and so does parsing a body that is not
   * JSON; every throw ends in the single `catch`.
   */
  function SendToTelegram(outcome: FetchOutcome): (r: SendResult)
    ensures r.success <==> outcome.Responded? && outcome.ok && !outcome.body.Unparseable?
    ensures r.success ==> r.message == SentMessage
    ensures outcome.Threw? ==> r == SendResult(false, SendNetworkError)
  {
    match outcome
    case Threw => SendResult(false, SendNetworkError)
    case Responded(ok, body) =>
      if !ok then
        match body
        case JsonObject(errorCode, description, _) =>
          if errorCode == Some(403) then SendResult(false, NotMemberMessage)
          else if errorCode == Some(400) then SendResult(false, InvalidRequestMessage)
          else if errorCode == Some(429) then SendResult(false, RateLimitMessage)
          else SendResult(false, ApiErrorPrefix + DescriptionOrUnknown(description))
        case _ => SendResult(false, SendNetworkError)
      else if body.Unparseable? then SendResult(false, SendNetworkError)
      else SendResult(true, SentMessage)
  }

  /** The kinds of outcome a submission's delivery can have. */
  datatype Delivery =
    | Delivered
    | NotAuthorized
    | MalformedRequest
    | RateLimited
    | EndpointError(description: string)
    | NetworkError

  /** The kind of a POST outcome: an endpoint-reported error by its code, everything that throws a network error. */
  function Classify(outcome: FetchOutcome): Delivery
  {
    if outcome.Threw? then NetworkError
    else if outcome.ok then (if outcome.body.Unparseable? then NetworkError else Delivered)
    else if !outcome.body.JsonObject? then NetworkError
    else
      match outcome.body.errorCode
      case Some(403) => NotAuthorized
      case Some(400) => MalformedRequest
      case Some(429) => RateLimited
      case _ => EndpointError(DescriptionOrUnknown(outcome.body.description))
  }

  /** What a caller can read back from a result: its kind, decided by `success` and the message text. */
  function Recognize(r: SendResult): Delivery
  {
    if r.success then Delivered
    else if r.message == NotMemberMessage then NotAuthorized
    else if r.message == InvalidRequestMessage then MalformedRequest
    else if r.message == RateLimitMessage then RateLimited
    else if ApiErrorPrefix <= r.message then EndpointError(r.message[|ApiErrorPrefix|..])
    else NetworkError
  }

  /**
   * The result's message is enough to tell every kind of outcome apart, a
   * network failure from an endpoint-reported error in particular.
   */
  lemma ResultNamesItsKind(outcome: FetchOutcome)
    ensures Recognize(SendToTelegram(outcome)) == Classify(outcome)
  {
    var r := SendToTelegram(outcome);
    if ApiErrorPrefix <= r.message {
      assert r.message[0] == 'A';
    }
    if outcome.Responded? && !outcome.ok && outcome.body.JsonObject? {
      var e := outcome.body.errorCode;
      if e != Some(403) && e != Some(400) && e != Some(429) {
        var m := r.message;
        assert m[..|ApiErrorPrefix|] == ApiErrorPrefix;
        assert m[0] == 'A';
        assert m != NotMemberMessage && m != InvalidRequestMessage && m != RateLimitMessage;
      }
    }
  }

  /** The texts of one diagnostic call: its success message, its error prefix and its network error. */
  datatype Texts = Texts(succeeded: string, failedPrefix: string, networkError: string)

  /** How much of an ok response's body a call reads before it reports success. */
  datatype SuccessRead = BodyIgnored | BodyParsed | ResultRead

  /** Whether reading an ok response's body that far goes through without a throw. */
  predicate Readable(read: SuccessRead, body: JsonBody)
  {
    match read
    case BodyIgnored => true
    case BodyParsed => !body.Unparseable?
    case ResultRead => body.JsonObject?
  }

  /**
   * The three-way pattern: success exactly when the response is ok and its
   * body reads, with the success text; a non-ok response with an object body
   * reports the prefix and the description (or "Unknown error"); anything
   * else, a throw included, reports the network error.
   */
  ghost predicate ThreeWay(outcome: FetchOutcome, success: bool, message: string, texts: Texts, read: SuccessRead)
  {
    var reported := outcome.Responded? && !outcome.ok && outcome.body.JsonObject?;
    (success <==> outcome.Responded? && outcome.ok && Readable(read, outcome.body))
    && (success ==> message == texts.succeeded)
    && (reported ==> message == texts.failedPrefix + DescriptionOrUnknown(outcome.body.description))
    && (!success && !reported ==> message == texts.networkError)
  }

  const BotInfoTexts := Texts("System info retrieved successfully", "Failed to get system info: ", "Network error while getting system info")
  const ChatInfoTexts := Texts("Group info retrieved successfully", "Failed to get group info: ", "Network error while getting group info")
  const PhotoTexts := Texts("Photo sent successfully", "Failed to send photo: ", "Network error while sending photo")

  /** `getBotInfo` once the GET has an outcome; the ok body's `result` becomes `data`. */
  function GetBotInfo(outcome: FetchOutcome): (r: InfoResult)
    ensures ThreeWay(outcome, r.success, r.message, BotInfoTexts, ResultRead)
    ensures r.data == if r.success then outcome.body.result else None
  {
    match outcome
    case Threw => InfoResult(false, None, BotInfoTexts.networkError)
    case Responded(ok, body) =>
      if !ok then
        if body.JsonObject? then InfoResult(false, None, BotInfoTexts.failedPrefix + DescriptionOrUnknown(body.description))
        else InfoResult(false, None, BotInfoTexts.networkError)
      else if body.JsonObject? then InfoResult(true, body.result, BotInfoTexts.succeeded)
      else InfoResult(false, None, BotInfoTexts.networkError)
  }

  /** `getChatInfo` once the GET has an outcome; the ok body's `result` becomes `data`. */
  function GetChatInfo(outcome: FetchOutcome): (r: InfoResult)
    ensures ThreeWay(outcome, r.success, r.message, ChatInfoTexts, ResultRead)
    ensures r.data == if r.success then outcome.body.result else None
  {
    match outcome
    case Threw => InfoResult(false, None, ChatInfoTexts.networkError)
    case Responded(ok, body) =>
      if !ok then
        if body.JsonObject? then InfoResult(false, None, ChatInfoTexts.failedPrefix + DescriptionOrUnknown(body.description))
        else InfoResult(false, None, ChatInfoTexts.networkError)
      else if body.JsonObject? then InfoResult(true, body.result, ChatInfoTexts.succeeded)
      else InfoResult(false, None, ChatInfoTexts.networkError)
  }

  /** `sendPhotoToTelegram` once the POST has an outcome; an ok response's body is never read. */
  function SendPhotoToTelegram(outcome: FetchOutcome): (r: SendResult)
    ensures ThreeWay(outcome, r.success, r.message, PhotoTexts, BodyIgnored)
  {
    match outcome
    case Threw => SendResult(false, PhotoTexts.networkError)
    case Responded(ok, body) =>
      if ok then SendResult(true, PhotoTexts.succeeded)
      else if body.JsonObject? then SendResult(false, PhotoTexts.failedPrefix + DescriptionOrUnknown(body.description))
      else SendResult(false, PhotoTexts.networkError)
  }

  /** `sendToTelegram` follows the same pattern, prefix "API error: ", for every error code but 403, 400 and 429. */
  lemma SendFollowsThreeWayOutsideKnownCodes(outcome: FetchOutcome)
    requires !(outcome.Responded? && !outcome.ok && outcome.body.JsonObject?
               && outcome.body.errorCode in {Some(403), Some(400), Some(429)})
    ensures var r := SendToTelegram(outcome);
      ThreeWay(outcome, r.success, r.message, Texts(SentMessage, ApiErrorPrefix, SendNetworkError), BodyParsed)
  {
  }

  /**
   * Under the three-way pattern, a failed call's message is its network
   * error exactly when the endpoint did not report the error, provided the
   * prefix and the network error start differently.
   */
  lemma ThreeWayTellsNetworkFromEndpoint(outcome: FetchOutcome, success: bool, message: string, texts: Texts, read: SuccessRead)
    requires ThreeWay(outcome, success, message, texts, read)
    requires texts.failedPrefix != "" && texts.networkError != "" && texts.failedPrefix[0] != texts.networkError[0]
    requires !success
    ensures message == texts.networkError <==> !(outcome.Responded? && !outcome.ok && outcome.body.JsonObject?)
  {
    if outcome.Responded? && !outcome.ok && outcome.body.JsonObject? {
      assert message[0] == texts.failedPrefix[0];
    }
  }

  /** Each diagnostic call's failure message tells a network failure from an endpoint-reported error. */
  lemma DiagnosticFailuresDistinguishable(outcome: FetchOutcome)
    ensures var reported := outcome.Responded? && !outcome.ok && outcome.body.JsonObject?;
      (!GetBotInfo(outcome).success ==> (GetBotInfo(outcome).message == BotInfoTexts.networkError <==> !reported))
      && (!GetChatInfo(outcome).success ==> (GetChatInfo(outcome).message == ChatInfoTexts.networkError <==> !reported))
      && (!SendPhotoToTelegram(outcome).success ==> (SendPhotoToTelegram(outcome).message == PhotoTexts.networkError <==> !reported))
  {
    var b := GetBotInfo(outcome);
    var c := GetChatInfo(outcome);
    var p := SendPhotoToTelegram(outcome);
    if !b.success {
      ThreeWayTellsNetworkFromEndpoint(outcome, b.success, b.message, BotInfoTexts, ResultRead);
    }
    if !c.success {
      ThreeWayTellsNetworkFromEndpoint(outcome, c.success, c.message, ChatInfoTexts, ResultRead);
    }
    if !p.success {
      ThreeWayTellsNetworkFromEndpoint(outcome, p.success, p.message, PhotoTexts, BodyIgnored);
    }
  }
}
