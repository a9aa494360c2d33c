# Dealer performance dashboard component (`dpsData`), modelled in Dafny

The `dpsData` Lightning Web Component shows a dealer scorecard dashboard. On mount it loads a
payload for its record (`load`). The user may pick another business account code (BAC) in a
picker (`handleBacChange`) and re-fetch the data for that scope (`handleGo`). Five getters
project the payload into the rows the template renders (`bacOptions`, `monthLabels`,
`fiSections`, `contacts`, `oppsTable`). Two handlers open outbound links built from the payload
(`openScorecard`, `openSummary`).

The model has six modules:

- `Wrappers` (`wrappers.dfy`): `Option`, standing for JavaScript's absent values (`undefined`/`null`).
- `DpsModel` (`payload.dfy`): the service payload. Every field the code reads through `?.`
  is an `Option`. It also holds `x || []` and `x || ''` as `OrEmptyList` and `OrEmpty`.
- `DpsView` (`view.dfy`): the five getters as total pure functions of `Option<Payload>`.
- `DpsLinks` (`links.dfy`): the URL of the two link handlers. `ParseLink` reads a link back.
  It is not part of the component; it pins down what the unencoded link carries.
- `DpsTransitions` (`transitions.dfy`): the component's state as a value, and one transition
  function per handler. `Run` folds them over a sequence of events.
- `DpsComponent` (`component.dfy`): class `DpsData` with the fields `data` and `selectedBAC`,
  updated in place. A ghost log `toasts` stands for the dispatched notifications. Each
  handler is proved to move the object exactly as its transition function says.
- `DpsScenarios` (`scenarios.dfy`): concrete runs of the class (initial load, failed re-scope)
  and one concrete link.

Remote results are inputs. `load` and `handleGo` take a `FetchResult`: either `Ok` with a
response that may be null, or `Err` with an optional `body.message` and the error's own
`message`. Each returns the `Request` it sends, so the `selectedBAC` scope of `handleGo`
is visible. The two page addresses are parameters of the link functions. The labels they
come from are not modelled.

Behaviour of the code that the model keeps:

- **Null response to `load`.** `load` stores the response before it reads
  `resp.selectedBAC`. A null response therefore clears `data` and then throws a
  `TypeError`. The catch block shows that error's text, which comes from the host and is
  the parameter `nullReadMessage`. So "a failed load leaves both fields unchanged" holds
  for rejections only. A null response clears `data`. It was absent anyway before the
  first load.
- **Null response to `handleGo`.** The payload is replaced by nothing, and no
  notification is shown.
- **Error messages.** `e?.body?.message || e.message` falls back to `e.message` when the
  body message is absent or the empty string.
- **Field rename.** The picker entry's `label` is named `caption` here, because `label`
  is a reserved word in Dafny.

## Model

| member | source | states |
|---|---|---|
| DpsView.BacOptions | force-app/main/default/lwc/dpsData/dpsData.js:27-29 | [] without payload or field; otherwise same length and order, each caption/value copied verbatim |
| DpsView.MonthLabels | force-app/main/default/lwc/dpsData/dpsData.js:31-33 | the payload's month labels unchanged, [] when payload or field is absent |
| DpsView.FiSections | force-app/main/default/lwc/dpsData/dpsData.js:35-37 | the payload's sections passed through untouched, [] when payload or field is absent |
| DpsView.Contacts | force-app/main/default/lwc/dpsData/dpsData.js:39-41 | the payload's contacts passed through untouched, [] when payload or field is absent |
| DpsView.Opportunities | force-app/main/default/lwc/dpsData/dpsData.js:44 | the list the table is built from: the field, or [] when it or the payload is absent |
| DpsView.OppsTable | force-app/main/default/lwc/dpsData/dpsData.js:43-52 | one row per opportunity: row i has id i + 1 and the five fields of opportunity i |
| DpsView.OppsTableRoundTrip | force-app/main/default/lwc/dpsData/dpsData.js:44-51 | stripping the ids from the table gives back exactly the opportunities |
| DpsView.OppsTableIdsArePositions | force-app/main/default/lwc/dpsData/dpsData.js:45 | ids depend only on position: equally long lists get the same ids, i + 1 |
| DpsLinks.ScorecardLink | force-app/main/default/lwc/dpsData/dpsData.js:82-84 | page + "&usid=" + employee number + "&said=" + auction id, absent parts ""; reads back as those two values when the employee number has no '&' |
| DpsLinks.SummaryLink | force-app/main/default/lwc/dpsData/dpsData.js:88-90 | the same link shape on the summary page |
| DpsLinks.LinkRoundTrip | force-app/main/default/lwc/dpsData/dpsData.js:84 | a link built from an employee number without '&' reads back as the pair it was built from |
| DpsLinks.ParseLinkSound | force-app/main/default/lwc/dpsData/dpsData.js:84 | whatever reads back is a built link, of an employee number without '&' |
| DpsLinks.ParseLinkExact | force-app/main/default/lwc/dpsData/dpsData.js:84 | reading back succeeds with (e, s) if and only if the url is the link of (e, s) and e has no '&' |
| DpsLinks.LinkAmbiguous | force-app/main/default/lwc/dpsData/dpsData.js:90 | with no encoding, two different parameter pairs can give the same link |
| DpsTransitions.ErrorMessage | force-app/main/default/lwc/dpsData/dpsData.js:23 | a present, non-empty body message wins; otherwise the error's own message |
| DpsTransitions.ErrorToast | force-app/main/default/lwc/dpsData/dpsData.js:78 | the notification of a rejection has title "Error", variant "error" and the extracted message |
| DpsTransitions.AfterLoad | force-app/main/default/lwc/dpsData/dpsData.js:17-25 | a payload sets data and selectedBAC from it, no notification; a rejection changes no field and adds one error; a null response clears data and adds one error |
| DpsTransitions.GoRequest | force-app/main/default/lwc/dpsData/dpsData.js:75 | the re-fetch is scoped by the record and the selection current at the call |
| DpsTransitions.AfterGo | force-app/main/default/lwc/dpsData/dpsData.js:73-80 | selection never changes; a response replaces data with no notification; a rejection keeps the stale data and adds one error |
| DpsTransitions.AfterBacChange | force-app/main/default/lwc/dpsData/dpsData.js:69-71 | only the selection changes, to the picked value, with no notification and no check against the options |
| DpsTransitions.RunNotifiesOncePerFailure | force-app/main/default/lwc/dpsData/dpsData.js:22-24 | over any run the log keeps its prefix and gains exactly one "Error"/"error" notification per failed call |
| DpsTransitions.GoRunKeepsSelection | force-app/main/default/lwc/dpsData/dpsData.js:73-80 | any run of re-fetches keeps the selection, and leaves data absent only if it was absent or a response was null |
| DpsComponent.DpsData.constructor | force-app/main/default/lwc/dpsData/dpsData.js:9-11 | a new component has its record id, no data, no selection, no notifications |
| DpsComponent.DpsData.Notify | force-app/main/default/lwc/dpsData/dpsData.js:94-96 | appends exactly the given notification and changes no field |
| DpsComponent.DpsData.Load | force-app/main/default/lwc/dpsData/dpsData.js:17-25 | sends the record id and moves the object as AfterLoad says |
| DpsComponent.DpsData.HandleBacChange | force-app/main/default/lwc/dpsData/dpsData.js:69-71 | moves the object as AfterBacChange says |
| DpsComponent.DpsData.HandleGo | force-app/main/default/lwc/dpsData/dpsData.js:73-80 | sends the current selection and moves the object as AfterGo says |
| DpsScenarios.InitialLoadScenario | force-app/main/default/lwc/dpsData/dpsData.js:17-21 | loading a "B1" payload selects "B1", offers one choice and numbers its opportunity 1 |
| DpsScenarios.FailedRescopeScenario | force-app/main/default/lwc/dpsData/dpsData.js:69-79 | with "B2" picked, a rejected re-fetch sends "B2" and keeps the selection and the old payload |
| DpsScenarios.ScorecardLinkScenario | force-app/main/default/lwc/dpsData/dpsData.js:82-84 | base "https://x/scorecard?" with E1/A1 gives "https://x/scorecard?&usid=E1&said=A1" |

## Left out

- The two Apex calls `getInitialData` and `getDataForBac`. They are remote and their logic is unseen, so their outcome is the `FetchResult` input.
- `ShowToastEvent` and `dispatchEvent`. They are host side effects, recorded in the ghost log `toasts`.
- `window.open`. It is a host side effect. The link functions return the URL instead.
- `connectedCallback` and the `@api`/`@track` decorators. Reactivity and re-rendering are the host's job. `connectedCallback` only calls `load`.
- Overlapping `handleGo` calls. Each call is one atomic transition. The interleaving of calls that are still awaiting a response is not modelled.
- The column configurations `oppsColumns` and `contactColumns`. They are fixed metadata with no behaviour.
- The custom labels `AF_DealerScorecard_Page` and `AF_DealerSummary_Page`. They become the optional page parameters of the link functions.
- Non-string JavaScript values where the code expects a string. The `||` defaults treat `0`, `false` and `NaN` as absent too. The model types these fields as strings.
- Null elements inside `bacOptions` or `opportunities`. For these the JavaScript `map` throws a `TypeError`. The model's elements are always records.
- An undefined `e.message`. The model's `Err` always carries a message string.
- The content of `fiSections` entries. They are an opaque type `FiSection`, which the component never inspects.
