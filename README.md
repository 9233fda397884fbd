# Portfolio site core, in Dafny

A model of three parts of a multilingual portfolio site (Next.js, in
TypeScript) and the properties proved about them:

- **The contact notifier** (`lib/telegram.ts`). `formatMessage` turns a
  contact submission into the HTML text posted to a Telegram group, with
  labels in Uzbek, Russian or English. Four calls to the bot API each turn
  the outcome of their HTTP request into a `{success, message}` result:
  `sendToTelegram`, `getBotInfo`, `getChatInfo` and `sendPhotoToTelegram`.
  The request's outcome is an input of the model (`FetchOutcome`). It is
  either a thrown exception or a response, given by its `ok` flag and the
  JSON body the code reads.
- **The project image carousel** (`components/project-image-carousel.tsx`).
  One piece of state, `currentImageIndex`, is moved by the previous and next
  arrows with wrap-around and set directly by the indicator dots. It is
  modelled as the class `ImageCarousel`. The rendered view is a function of
  the image list and the index.
- **The locale switcher** (`components/lang-switcher.tsx`). It holds the
  label table, the default for the current locale and the path rewrite done
  on a locale change. The rewrite is a method that splits the path on '/',
  replaces piece 1 and joins the pieces again. It is proved equal to a
  definition stated on positions, and the properties of the switch are
  proved about that definition.

Files:

- `options.dfy`: the `Option` type.
- `segments.dfy`: JavaScript's `split`/`join` on a one-character
  separator, and `indexOf`.
- `telegram.dfy`
- `carousel.dfy`
- `lang_switcher.dfy`

## Model

| member | source | states |
|---|---|---|
| Segments.Split | components/lang-switcher.tsx:19 | `split` on one character: always at least one piece, and no piece holds the separator |
| Segments.JoinSplit | components/lang-switcher.tsx:19-24 | joining the pieces of a split gives back the string |
| Segments.SplitJoin | components/lang-switcher.tsx:19-24 | splitting a join of separator-free pieces gives back the pieces |
| Segments.SplitAtFirst | components/lang-switcher.tsx:19 | the first piece is everything before the first separator, and the remaining pieces are the split of what follows it |
| Segments.IndexOf | components/lang-switcher.tsx:19 | a helper stating where `split` cuts (used by `SplitAtFirst` and `LocalizedPath`): the first position of the separator, or the length when it is absent |
| Segments.IndexOfAbsent | components/lang-switcher.tsx:19 | for that helper: the position of the first cut is the length exactly when the separator is absent, so `split` gives one piece |
| LangSwitcher.CurrentLocale | components/lang-switcher.tsx:16 | the route's `lang` parameter when it is present and non-empty, otherwise "en"; never empty |
| LangSwitcher.LabelsCoverOfferedLocales | components/lang-switcher.tsx:6-10 | the label table has exactly the three offered locales (items at lines 33-36) as keys, and the default "en" has a label |
| LangSwitcher.OnChange | components/lang-switcher.tsx:18-26 | the split / overwrite piece 1 / join / `"/" + next` fallback computes `LocalizedPath`: the path up to its first '/', then the new locale, then everything from the second '/' on |
| LangSwitcher.RewriteMatchesPositions | components/lang-switcher.tsx:19-24 | the piece-wise rewrite equals the position-wise `LocalizedPath` for every path |
| LangSwitcher.RewriteWithSlash | components/lang-switcher.tsx:21-24 | a path holding '/' has more than one piece, and its rewrite is never empty, so the fallback is not taken |
| LangSwitcher.ReplacesOnlyFirstSegment | components/lang-switcher.tsx:20-23 | "/" + old locale + rest becomes "/" + new locale + rest, with the rest kept verbatim |
| LangSwitcher.PathWithoutSlash | components/lang-switcher.tsx:21-24 | a path without '/' is kept unchanged; only the empty path becomes "/" + next |
| LangSwitcher.SegmentsAfterRewrite | components/lang-switcher.tsx:19-24 | for a slash-free locale, the pieces of the new path are the old pieces with piece 1 replaced; the empty path gains the pieces "" and next |
| LangSwitcher.LastSwitchWins | components/lang-switcher.tsx:18-26 | switching to a then to b gives the same path as switching straight to b |
| LangSwitcher.SwitchIdempotent | components/lang-switcher.tsx:18-26 | switching twice to the same locale gives the same path as once |
| Carousel.NextIsSuccessorModulo | components/project-image-carousel.tsx:23-27 | on a valid index, "next" is (i + 1) mod n and stays in range |
| Carousel.PreviousIsPredecessorModulo | components/project-image-carousel.tsx:17-21 | on a valid index, "previous" is (i + n - 1) mod n and stays in range |
| Carousel.NextAndPreviousAreInverse | components/project-image-carousel.tsx:17-27 | "next" then "previous", or the reverse, returns to the starting index |
| Carousel.AdvanceIsModulo | components/project-image-carousel.tsx:23-27 | k presses of "next" move k places forward modulo n |
| Carousel.FullCycle | components/project-image-carousel.tsx:23-27 | n presses of "next" return to the starting image |
| Carousel.Indicators | components/project-image-carousel.tsx:76-87 | one dot per index in order, the dot for index k targets k and is highlighted exactly when k is the current index |
| Carousel.Render | components/project-image-carousel.tsx:33-96 | placeholder exactly for an empty list; otherwise the current image with alt number index + 1; arrows, dots and the "index + 1 / n" counter exactly when there is more than one image; every dot targets a valid index and is highlighted exactly when it targets the current one |
| Carousel.OneActiveIndicator | components/project-image-carousel.tsx:79-83 | with more than one image exactly one dot is highlighted, the current one |
| Carousel.ImageCarousel.constructor | components/project-image-carousel.tsx:15 | the index starts at 0, which is valid |
| Carousel.ImageCarousel.GoToPrevious | components/project-image-carousel.tsx:17-21 | the index becomes its wrap-around predecessor and stays valid |
| Carousel.ImageCarousel.GoToNext | components/project-image-carousel.tsx:23-27 | the index becomes its wrap-around successor and stays valid |
| Carousel.ImageCarousel.GoToImage | components/project-image-carousel.tsx:29-31 | the index becomes the given one, which is valid when it is in range as every dot gives it |
| Telegram.LabelsFor | lib/telegram.ts:90-117 | "uz" and "ru" get their own label sets; every other `lang` gets the English ones |
| Telegram.ToUpperAscii | lib/telegram.ts:128 | `toUpperCase` keeps the length and upper-cases each character on its own |
| Telegram.FormatIsJoinedLines | lib/telegram.ts:119-128 | the message is its lines joined by newlines: header, blank, name, email, the optional phone line, blank, message label, message, blank, from |
| Telegram.LinesRecovered | lib/telegram.ts:119-128 | when no field holds a newline, splitting the message on newlines gives back exactly those lines in that order |
| Telegram.PhoneLineInLines | lib/telegram.ts:119-128 | for every submission, the message's lines (of which it is the newline join) number 10 exactly when a non-empty phone is given and 9 otherwise, and the phone line comes right after the email line with the number verbatim |
| Telegram.EmptyPhoneIsNoPhone | lib/telegram.ts:123-125 | for every submission, an empty phone gives the same text as no phone |
| Telegram.PhoneLineIffPhoneGiven | lib/telegram.ts:123-125 | when no field holds a newline, splitting the text itself on newlines gives 10 lines exactly when a non-empty phone is given (9 otherwise), with the phone line after the email line |
| Telegram.OpensAndCloses | lib/telegram.ts:119-128 | with any label set, the text starts with the bold header, name and email lines and ends with the bold "from" label and the upper-cased `lang` |
| Telegram.MessageFrame | lib/telegram.ts:117-128 | the same opening and closing for the label set chosen by `lang` |
| Telegram.UnknownLangKeepsRawTag | lib/telegram.ts:117-128 | an unknown `lang` ("de") gets the English labels but its own upper-cased value, "DE", in the last line |
| Telegram.FieldsAreNotDelimited | lib/telegram.ts:120-121 | field values are not escaped, so two different submissions (a name carrying a fake email line, or an email carrying it) give the same text |
| Telegram.AsWrittenAgreesOutsidePrototypeKeys | lib/telegram.ts:117 | outside the keys inherited from `Object.prototype`, the lookup as written gives the same text as `LabelsFor` |
| Telegram.PrototypeKeyBreaksLabels | lib/telegram.ts:117 | with `lang` "constructor" the lookup as written opens with the header "undefined" and the name label "Object", where the English fallback was meant |
| Telegram.SendMessageBody | lib/telegram.ts:16-26 | the request's text is the formatted message, sent to the group in HTML mode with link previews off and notification on; when no field holds a newline, the text splits back into the message lines |
| Telegram.DescriptionOrUnknown | lib/telegram.ts:67 | a non-empty description is used verbatim; an absent or empty one gives "Unknown error"; never empty |
| Telegram.SendToTelegram | lib/telegram.ts:12-85 | success exactly when the response is ok and its body parses, with "Message sent successfully"; a thrown request gives the network error |
| Telegram.ResultNamesItsKind | lib/telegram.ts:43-84 | reading the result back (success flag, then the message) recovers the outcome's kind: delivered, error code 403, 400 or 429, another endpoint error with its description, or network error |
| Telegram.SendFollowsThreeWayOutsideKnownCodes | lib/telegram.ts:43-84 | apart from error codes 403, 400 and 429, `sendToTelegram` follows the same success / "prefix + description" / network-error pattern as the diagnostic calls |
| Telegram.GetBotInfo | lib/telegram.ts:134-159 | success exactly when the response is ok and its body is an object, with `data` the body's `result`; a non-ok object body gives "Failed to get system info: " + description; anything else gives the network error |
| Telegram.GetChatInfo | lib/telegram.ts:161-186 | the same pattern with the group-info texts |
| Telegram.SendPhotoToTelegram | lib/telegram.ts:188-222 | success exactly when the response is ok, whatever its body; the same failure pattern with the photo texts |
| Telegram.ThreeWayTellsNetworkFromEndpoint | lib/telegram.ts:138-158 | under that pattern, a failure's message is the network error exactly when the endpoint did not report the error |
| Telegram.DiagnosticFailuresDistinguishable | lib/telegram.ts:134-222 | for each of the three diagnostic calls, a failed result tells a network failure from an endpoint-reported error |

## Left out

- The HTTP requests themselves (`fetch`, awaiting, the URLs and the headers). They are not modelled: each call's outcome is an input.
- The `console.log` and `console.error` calls. They are not modelled.
- The bot token and the group id from the environment. They are not modelled; the group id is a parameter of `SendMessageBody`.
- Telegram.ToUpperAscii: upper-cases ASCII letters only. JavaScript's `toUpperCase` also maps other letters, and may lengthen a string (e.g. "ß" becomes "SS"). `lang` is a locale code in practice.
- Telegram.DescriptionOrUnknown: the body's `description` is a string or absent. A non-string truthy value, which JavaScript would interpolate as text, is not modelled.
- Telegram.GetBotInfo: `data` is the body's `result` held as text; its JSON structure is not modelled. The same holds for `Telegram.GetChatInfo`.
- Telegram.SendToTelegram: a JSON body that is neither an object nor null reads as an object with none of the fields. JavaScript reads properties of a number or string the same way.
- The `chatId` argument of `getChatInfo` and the `photoUrl` and `caption` of `sendPhotoToTelegram` only shape the request. They are not modelled.
- How Telegram parses the HTML text; unescaped "<" in user fields may be rejected there. This is not modelled beyond `Telegram.FieldsAreNotDelimited`.
- The label strings of `lib/telegram.ts` are kept exactly as stored. The stored text is the UTF-8 encoding of the intended emoji and Russian text, read back as Mac Roman.
- The required-field check (app/[lang]/actions.ts:16-22) and the other server-action glue are not part of this model.
- The page that negotiates the locale (app/page.tsx) is not part of this model, nor are the dictionaries or the other components.
- Carousel.ImageCarousel.GoToImage: the index is not range-checked. Validity is kept only for the in-range indices that the dots pass.
- Carousel.Render: requires a valid index for a non-empty list. This is the invariant the class keeps. A change of the `images` prop under an existing index is not modelled.
- The carousel's styling, the `alt` prefix, `projectIndex` and the image sizes are presentation only. They are not modelled.
- Rendering of the locale switcher's select, and `router.push`, are not modelled. `OnChange` returns the path it would push.

## Findings

| source | as written | input that shows it | evidently intended | confidence | as-written member | corrected member |
|---|---|---|---|---|---|---|
| lib/telegram.ts:117 | `labels[lang] \|\| labels.en` finds the inherited `Object.prototype` members for keys such as "constructor", which are truthy, so the English fallback is skipped | a submission with `lang` "constructor" (the server action at app/[lang]/actions.ts:5 takes `lang` from its caller) yields the header "undefined" and the name label "Object" | every `lang` other than "uz" and "ru" gets the English labels | medium, not executed | Telegram.PrototypeKeyBreaksLabels | Telegram.LabelsFor |
