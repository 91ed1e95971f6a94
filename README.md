# Meta Pixel bridge of the travel-agency site, in Dafny

This project models the sequential logic in a Next.js marketing site. Everything else in that site is layout.

- **The analytics event bridge** (`lib/meta-pixel.ts`, and `trackLead` in `lib/fpixel.ts`). Each operation checks that a `window` exists and that the third-party tracking handle `window.fbq` is set. It then builds a payload object and invokes the handle as `fbq(verb, name, payload)`.
  - The page state is a class `Browser.Window` with fields `hasWindow`, `handlePresent`, `calls` and `failsOn`.
  - `calls` is the log of every invocation of the handle.
  - `failsOn` is the set of invocations on which the handle throws.
  - The operations are methods over a `Window`. Their contracts say which calls are appended, in what order and with which payload. They also cover the guard and the try/catch paths.
- **The route-to-page-name derivation** (`components/meta-pixel-initializer.tsx`). A fixed table is tried first. Otherwise the name is built with `slice(1)`, then `replace(/[/-]/g, " ")`, then `replace(/\b\w/g, toUpperCase)`, and the final fallback is `"UnnamedPage"`. This part also covers the component's two effects.
- **The cookie lookup** `getFbc` / `getFbp` (`lib/fpixel.ts`). It splits `document.cookie` on `"; "`, takes the first row with the wanted prefix, and returns `row.split("=")[1]`.
- **The icon selection rule** of `components/icon-renderer.tsx`.

Payload values are `JsValues.Value` (string, number, boolean or `undefined`). Payload objects are `map<string, Value>`. JavaScript's `||` on optional strings and object spread are written out in `JsValues`. `JsStrings` writes out `startsWith` and `split` with a non-empty separator, which the cookie parser uses, and `join`, which undoes `split` in the round-trip lemma.

The model follows the code as written:
- `trackContactFormSubmission` does not filter absent fields. A field passed as `undefined` reaches both payloads.
- The Lead payload also carries `value: 1` and `currency: "USD"`.
- The Contact call carries the caller's object unchanged, not the Lead payload.
- `initializeMetaPixel` records nothing and changes nothing. The loader script does the real initialization.
- The two files read the pixel identifier from different variables. `lib/fpixel.ts` reads `NEXT_PUBLIC_META_PIXEL_ID`. The initializer reads `NEXT_PUBLIC_FACEBOOK_PIXEL_ID`. Both fall back to the same built-in identifier.

Console output is reduced to a `LogLevel` tag (`Quiet`, `Info`, `Warn`, `Error`) that each bridge operation returns. The bridge's methods have no failure outcome, so an exception thrown by the handle never reaches their caller. `FPixel.TrackLead` has no try/catch, and its `threw` result says when the exception propagates.

## Model

| member | source | states |
|---|---|---|
| Browser.Window.Invoke | lib/meta-pixel.ts:6-16 | invoking the handle appends exactly that call to the log and throws exactly when the call is one the handle fails on |
| MetaPixel.InitializeMetaPixel | lib/meta-pixel.ts:22-32 | changes no state (no modifies clause) whether or not the handle is present; it logs only when a window and the handle exist |
| MetaPixel.PageViewPayload | lib/meta-pixel.ts:45-48 | the page-view payload keeps every caller key, adds `page_name` and nothing else; `page_name` is the page name, or `"UnnamedPage"` when it is absent or empty, and overrides a caller's `page_name` |
| MetaPixel.TrackPageView | lib/meta-pixel.ts:38-55 | without a window or handle: no call, warning; otherwise exactly one `("track", "PageView", payload)` call, and a throw ends in an error log instead of escaping |
| MetaPixel.TrackEvent | lib/meta-pixel.ts:60-72 | without a window or handle: no call; otherwise exactly one `("track", eventName, parameters)` call with the parameters unchanged (also `undefined`); a throw is caught |
| MetaPixel.TrackLead | lib/meta-pixel.ts:77-79 | the same calls and outcome as `TrackEvent` with the name `"Lead"` |
| MetaPixel.TrackContact | lib/meta-pixel.ts:84-86 | the same calls and outcome as `TrackEvent` with the name `"Contact"` |
| MetaPixel.LeadCategory | lib/meta-pixel.ts:109 | the content category is the caller's `service` when it is truthy, else `"General Inquiry"`; never falsy |
| MetaPixel.LeadPayload | lib/meta-pixel.ts:107-113 | the Lead payload has exactly the caller's keys plus the four fixed ones; every caller key keeps its value, including over a fixed key; a fixed key the caller does not set has its fixed value |
| MetaPixel.TrackContactFormSubmission | lib/meta-pixel.ts:92-122 | without a window or handle: no call; an `undefined` argument: no call, error caught; otherwise the Lead call and then the Contact call with the raw parameters; if the Lead call throws, the Contact call is not made and the operation still returns |
| MetaPixel.TrackCustomEvent | lib/meta-pixel.ts:127-139 | as `TrackEvent`, with the verb `"trackCustom"` |
| MetaPixel.LeadPayloadForNameOnly | lib/meta-pixel.ts:107-113 | a submission with only `name: "Ann"` yields exactly five keys: the four fixed ones with the category `"General Inquiry"`, and `name` |
| MetaPixel.LeadPayloadUsesService | lib/meta-pixel.ts:109 | a non-empty service string becomes the Lead payload's `content_category` |
| MetaPixel.LeadPayloadKeepsUndefinedFields | lib/meta-pixel.ts:112 | a field passed as `undefined` is kept in the Lead payload, as `undefined` |
| PageName.ReplaceSeparatorsAt | components/meta-pixel-initializer.tsx:43 | replacing separators keeps the length; each `/` and `-` becomes one space; every other character is unchanged |
| PageName.CapitalizeFromAt | components/meta-pixel-initializer.tsx:44 | scanning with a "previous character was a word character" flag upper-cases exactly the word characters not preceded by a word character |
| PageName.CapitalizeWordsAt | components/meta-pixel-initializer.tsx:44 | `replace(/\b\w/g, toUpperCase)` keeps the length and upper-cases exactly the ASCII word characters that are first or follow a non-word character |
| PageName.CapitalizeWordsChanges | components/meta-pixel-initializer.tsx:44 | a character changes iff it is a lower-case letter at a word start; existing capitals, digits, `_` and non-word characters are kept |
| PageName.GeneratedNameShape | components/meta-pixel-initializer.tsx:41-44 | the generated name is one character shorter than the path, contains no `/` or `-`, and is the path's tail with separators blanked and word starts upper-cased |
| PageName.DerivedPageName | components/meta-pixel-initializer.tsx:39-45 | the derived page name is never empty |
| PageName.DerivedPageNameCases | components/meta-pixel-initializer.tsx:39-45 | a path in the table gets its fixed name; an unmapped path of two or more characters gets its generated name; a shorter unmapped path gets `"UnnamedPage"` |
| PageName.PageNamesTable | components/meta-pixel-initializer.tsx:31-36 | `/`, `/contact`, `/blog` and `/about` map to `HomePage`, `ContactPage`, `BlogPage` and `AboutPage` |
| PageName.PricingPlansBlanked | components/meta-pixel-initializer.tsx:43 | `pricing-plans` becomes `pricing plans` |
| PageName.PricingPlansCapitalized | components/meta-pixel-initializer.tsx:44 | `pricing plans` becomes `Pricing Plans` |
| PageName.PricingPlansExample | components/meta-pixel-initializer.tsx:39-45 | the unmapped path `/pricing-plans` is reported as `Pricing Plans` |
| MetaPixelInitializer.PixelId | components/meta-pixel-initializer.tsx:16 | the pixel identifier is the environment value when it is set and non-empty, else `748336294208189`; never empty |
| MetaPixelInitializer.MountEffect | components/meta-pixel-initializer.tsx:19-23 | initialization is requested iff a window exists and the handle is absent |
| MetaPixelInitializer.RouteChangeEffect | components/meta-pixel-initializer.tsx:26-51 | without a window or handle: no page view; otherwise exactly one PageView call whose payload is `page_url` and the derived page name |
| JsStrings.JoinSplit | lib/fpixel.ts:8 | joining the rows of `cookie.split("; ")` with `"; "` gives the cookie string back |
| JsStrings.SplitPiecesFree | lib/fpixel.ts:8-9 | no piece of a split contains the separator |
| FPixel.FbPixelId | lib/fpixel.ts:2 | `FB_PIXEL_ID` is the environment value when it is set and non-empty, else `748336294208189`; never empty |
| FPixel.FindRow | lib/fpixel.ts:8 | `find` returns the first row that starts with the prefix, and no row does when it returns nothing |
| FPixel.SecondField | lib/fpixel.ts:9 | `row.split("=")[1]` never contains `=` |
| FPixel.CookieValue | lib/fpixel.ts:7-9 | no document: `null`; `null` iff no `"; "`-separated row starts with the key and `=`; a returned value has no `=` |
| FPixel.GetFbc | lib/fpixel.ts:6-10 | as `CookieValue` for the key `_fbc` |
| FPixel.GetFbp | lib/fpixel.ts:13-17 | as `CookieValue` for the key `_fbp` |
| FPixel.SecondFieldOf | lib/fpixel.ts:9 | for the row `key=value` followed by nothing or by `=...`, the value read is `value`, so a value containing `=` is cut at it |
| FPixel.CookieValueOfFirstRow | lib/fpixel.ts:8-9 | the value comes from the first matching row, whatever later rows hold |
| FPixel.EmptyFbc | lib/fpixel.ts:9 | a first matching row `_fbc=` gives the empty string, not `null` |
| FPixel.LeadFormPayload | lib/fpixel.ts:27-31 | the Lead payload has exactly `content_name` (`Contact Form Lead`), `content_category` (the non-empty `service`, else `general`) and `status` (`completed`), and no other form field |
| FPixel.TrackLead | lib/fpixel.ts:25-33 | without a window or handle: no call, no throw; otherwise exactly one `("track", "Lead", payload)` call, and a throw reaches the caller |
| IconRenderer.RenderIcon | components/icon-renderer.tsx:15-24 | a registered name draws its icon, any other name draws `HelpCircle`; an unknown name with a non-empty fallback class gets that class, otherwise the class is `className`, which defaults to `h-7 w-7` when not passed |
| IconRenderer.KnownIgnoresFallback | components/icon-renderer.tsx:22 | for a registered name the fallback class has no effect |
| IconRenderer.ClassNameIsSupplied | components/icon-renderer.tsx:22 | the class drawn is the caller's class, the default, or the fallback class |

## Left out

- Console output (`console.log`, `warn`, `error`) is not modelled. Each bridge operation returns the kind of output it would end with.
- `generateExternalId` (lib/fpixel.ts:20-22) is not modelled, because it depends on the clock and a random number generator.
- The inline loader script that installs `window.fbq` and calls `fbq('init', ...)` is not modelled. It is third-party code with its own call queue. The page layout (`app/layout.tsx`), the FAQ, the loading page, the contact page and the build configuration are layout or configuration only.
- React's effect scheduling, `usePathname` and the lucide-react components are not modelled. The current path, `window.location.href`, the environment, `document.cookie` and the icon library are inputs.
- Whether the handle throws is decided per call by the set `Window.failsOn`. A handle that behaves differently on two identical calls is not modelled.
- Payload numbers are integers. JavaScript's floating-point numbers are not modelled, and the only number the bridge sends is `1`.
- PageName.DerivedPageName: the table lookup is a plain map. A JavaScript object would also answer keys such as `constructor` from its prototype. Route paths always begin with `/`, so no such key can occur.
- The icon library is an abstract `map<string, Icon>`. Which names lucide-react exports is not modelled.
