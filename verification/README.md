# AI tool ROI calculator — a verified model of its core

The calculator is a single-page React application that estimates the
return on investment of an AI coding assistant (Claude, OpenAI, Gemini or
GitHub Copilot) for a team. This project models its core logic in Dafny
and proves properties of that logic:

- **Input panel** (`Calculator`): the scenario, license and pricing tables,
  and the `"Category - License"` string with its `split(' - ')` lookup
  (`LicenseString`). It also covers the license dropdown options, the
  cost-per-user rule, and the three effects that keep the auto-populated
  fields in step with the selections. The effects are modelled as the
  settled state after each user event.
- **Results dashboard** (`Roi`): every derived figure, computed over exact
  reals. Division by zero produces JavaScript's `Infinity`, `-Infinity` or
  `NaN` (`ExtendedReal`). The module also covers the five-step
  recommendation ladder and the advice paragraph.
- **Saved-title navigation** (`CategoryNavigation`): the title list,
  saving with `trim()`, delete by filter, and the confirmation dialog.
- **Tooltips** (`SmartTooltip`): the viewport clamp of `calculatePosition`,
  and the module-wide registry that keeps at most one tooltip open.
- **Reference tables** (`PricingTables`): the accordion, and the hard-coded
  scenario and pricing rows checked against the calculator's own tables.

Modules: `Common`, `ExtendedReal`, `Roi`, `LicenseString`, `Calculator`,
`CategoryNavigation`, `SmartTooltip` and `PricingTables`. There is one
`.dfy` file per module.

The initial `useState` cost per user is 19 (components/Calculator.tsx:83).
That value lasts only until the first render's effects run: the cost effect
then replaces 19 with 23, which is Copilot Business at $19 plus the $4
GitHub fee. The model describes the settled state.
`Calculator.MountedState` and `Calculator.MountedDashboard` state the
figures the mounted panel actually produces.

## Model

| member | source | states |
|---|---|---|
| ExtendedReal.Quot | components/ResultsDashboard.tsx:37 | JavaScript division: finite exactly when the divisor is nonzero, and then the quotient times the divisor is the dividend. A zero divisor gives `Infinity`, `-Infinity` or `NaN` according to the sign of the dividend. |
| ExtendedReal.Abs | components/ResultsDashboard.tsx:65 | `Math.abs` on an extended value is never negative or `-Infinity`; it is `NaN` exactly for `NaN`. |
| Roi.Evaluate | components/ResultsDashboard.tsx:35-71 | The dashboard's figures hang together: net project savings plus the tool cost are the total savings, a quarter is three months and the net annual savings twelve. The ROI is finite exactly when the tool cost is nonzero, the effort share exactly when the total effort is nonzero, and both weekly figures exactly when the timeline is nonzero. The discounts never exceed 15, 25 and 35, and break-even is never `-Infinity`. |
| Roi.EffortShareIsProductivityGain | components/ResultsDashboard.tsx:35-37 | With a nonzero team and timeline, the effort-saved share equals the per-person gain `hoursSaved / 40 * 100` (the `savingsPercentage` of line 68). Otherwise the share is `NaN`. |
| Roi.TotalSavingsAreWeeklySavingsOverTimeline | components/ResultsDashboard.tsx:35-40 | Total savings are the weekly savings times the timeline, and also the saved hours priced at the hourly cost. |
| Roi.ToolCostViews | components/ResultsDashboard.tsx:47-51 | The total tool cost is the monthly cost over `timeline / 4.33` months, and the annual cost is twelve months. The weekly cost is the monthly cost over 4.33 weeks, and `NaN` for a zero timeline. |
| Roi.RoiHasSignOfNetSavings | components/ResultsDashboard.tsx:48-56 | With a positive tool cost, the ROI is finite and positive, zero or negative exactly as savings exceed, equal or fall short of the cost. With a zero tool cost, it is `Infinity`, `NaN` or `-Infinity` by the sign of the savings. |
| Roi.PeriodViewsAgree | components/ResultsDashboard.tsx:54-61 | The weekly savings are the twelve monthly savings divided, JavaScript-style, by the timeline: finite exactly for a nonzero timeline, and then times the timeline they give back twelve months of savings. |
| Roi.BreakEvenMonthsRule | components/ResultsDashboard.tsx:59-65 | Break-even is 0 with positive monthly savings. Otherwise it is the absolute ratio of the annual tool cost to one twelfth of the total (gross) cost savings, not to the net monthly savings, or `Infinity`/`NaN` with no savings. It is never negative. |
| Roi.DiscountsCappedAndOrdered | components/ResultsDashboard.tsx:68-71 | The discounts are 30/50/70% of the gain, capped at 15/25/35 and equal to the uncapped value below the cap. They are ordered safe ≤ moderate ≤ aggressive for non-negative saved hours. |
| Roi.GetRecommendation | components/ResultsDashboard.tsx:74-80 | The grade's rank is the number of thresholds among 0, 100, 200 and 500 that the ROI strictly exceeds. |
| Roi.RecommendationMonotone | components/ResultsDashboard.tsx:74-80 | A larger finite ROI never gets a lower grade, and `Infinity` gets the top grade. `NaN` and `-Infinity` get "Review Required". |
| Roi.BoundariesFallToLowerGrade | components/ResultsDashboard.tsx:74-80 | Because every comparison is a strict `>`, ROI values of exactly 500, 200, 100 and 0 get the grade below. |
| Roi.GetAdvice | components/ResultsDashboard.tsx:514-518 | The "excellent value" advice appears exactly for the grades ranked "Good Investment" or above, the positive advice exactly for "Positive ROI", and the negative advice exactly for "Review Required". |
| Roi.AdviceAgreesWithRecommendation | components/ResultsDashboard.tsx:514-518 | The "excellent value" advice appears exactly for the grades shown with the `CheckCircle` icon, which lines 75-77 of the same file pick. |
| LicenseString.Split | components/Calculator.tsx:102 | `split(' - ')` always yields at least one piece. No piece contains the separator, and the first piece is a prefix of the input. |
| LicenseString.SplitThenIntercalate | components/Calculator.tsx:102 | Gluing the pieces of a split back together with the separator gives the original string. |
| LicenseString.SplitDashFree | components/Calculator.tsx:102 | A string without a dash splits into itself alone. |
| LicenseString.SplitAfterDashFree | components/Calculator.tsx:102 | A dash-free category followed by the separator is split off as the first piece. |
| LicenseString.ParseJoin | components/Calculator.tsx:102 | Destructuring the split of an option value `C - L` recovers `C` and `L`, as built at line 159. |
| LicenseString.ParseDashFree | components/Calculator.tsx:102 | A string with no separator destructures to a category and an undefined license. |
| LicenseString.Parse | components/Calculator.tsx:102 | The category is the text before the first separator, or the whole string when there is none. The license is undefined exactly when the string contains no separator; otherwise it is the text after that separator up to the next one. Neither contains the separator. |
| LicenseString.SplitHasOnePieceIffSeparatorFree | components/Calculator.tsx:102 | A split yields a single piece exactly when the string contains no separator. |
| LicenseString.SplitLeftmost | components/Calculator.tsx:102 | `split` cuts at the leftmost separator: none starts inside the first piece, a single piece is the whole string, and otherwise a separator follows the first piece and the other pieces are the split of the text after it. |
| Calculator.HasLicenseTypesMatchesTable | components/Calculator.tsx:94-96 | `hasLicenseTypes` holds exactly for the tools that have an entry in `LICENSE_DATA`. |
| Calculator.ScenarioSeedsMonotone | components/Calculator.tsx:6-10 | Hours saved and both token volumes grow from Low to Medium to High usage. |
| Calculator.LicenseTablesWellFormed | components/Calculator.tsx:13-34 | In each license table, category names and tier names within a category are distinct and dash-free. |
| Calculator.FindCategory | components/Calculator.tsx:105-106 | The category lookup fails exactly when no category has the name; `FindCategoryFirst` states which category it finds. |
| Calculator.FindTier | components/Calculator.tsx:107 | The tier lookup fails exactly when no tier has the name. |
| Calculator.FindCategoryFirst | components/Calculator.tsx:105-106 | A successful category lookup returns the tiers of the first category with that name. |
| Calculator.FindTierFirst | components/Calculator.tsx:107 | A successful tier lookup returns the price of the first tier with that name. |
| Calculator.FindTierAt | components/Calculator.tsx:107 | In a table with distinct tier names, looking up the k-th tier's name yields the k-th tier's price. |
| Calculator.FindCategoryAt | components/Calculator.tsx:105-106 | In a table with distinct category names, looking up the k-th category's name yields the k-th category's tiers. |
| Calculator.TablePriceOfKnownKeys | components/Calculator.tsx:102-108 | The price lookup of `C - L`, for a category `C` and tier `L` present in a well-formed table, is that tier's price. |
| Calculator.LicensePriceLooksUpTable | components/Calculator.tsx:99-111 | For a dash-free category `C` and license `L`, `getLicensePrice(tool, "C - L")` is the table price when both keys exist, and 0 when the category is unknown or lacks the license. |
| Calculator.LicensePriceZeroWithoutTiers | components/Calculator.tsx:99-100 | Tools without license tiers price every license string at 0 and offer no license options (line 151). |
| Calculator.GetLicensePrice | components/Calculator.tsx:99-111 | A nonzero license price comes only from a tool with license tiers and is one of the prices in that tool's table. |
| Calculator.GetLicenseOptions | components/Calculator.tsx:150-167 | Only tools with license tiers get options, and every option is made from one category of the tool's table and one of its tiers. |
| Calculator.TableOptionsCoverTable | components/Calculator.tsx:156-164 | Every tier of every category appears among the options, with the value `category - tier` and the tier's price. |
| Calculator.TableOptionsRoundTrip | components/Calculator.tsx:150-167 | Every option of a well-formed table prices back, through the lookup, to the price it shows. |
| Calculator.TableOptionsComeFromTable | components/Calculator.tsx:156-164 | Every option is built from one category and one of its tiers. |
| Calculator.LicenseOptionsRoundTrip | components/Calculator.tsx:150-167 | `getLicensePrice(tool, o.value) == o.price` for every dropdown option. The option list is empty exactly for tools without tiers, and for the others it offers every tier of the table. |
| Calculator.CostPerUserRule | components/Calculator.tsx:123-144 | Per seat: Copilot costs its license plus the $4 fee, Claude its license, and OpenAI/Gemini the flat per-seat price. On the API: token volumes at the tool's rates, never negative for non-negative volumes. |
| Calculator.CostPerUser | components/Calculator.tsx:123-144 | Per seat the cost is a non-negative whole number: at least the $4 fee for Copilot, and 0 or at least $17 for the other tools. On the API it is never negative for non-negative token volumes. |
| Calculator.CopilotDefaultLicensePrice | components/Calculator.tsx:115-116 | The license Copilot falls back to when the tool changes is priced at $19. |
| Calculator.ClaudeDefaultLicensePrice | components/Calculator.tsx:117-118 | The license Claude falls back to when the tool changes is priced at $25. |
| Calculator.LicensePriceOfKnownKeys | components/Calculator.tsx:99-111 | For a tool with tiers, the price of `C - L` built from the tool's own table is that tier's price. |
| Calculator.Mounted | components/Calculator.tsx:71-91 | The mounted panel is settled, its auto-populated fields hold the seeds of its scenario, and its license has a nonzero price. |
| Calculator.Step | components/Calculator.tsx:85-144 | Each user event keeps the cost in step with the selections. Entering the timeline, team size, hourly cost or hours saved sets that field and changes nothing else. Selecting a license or pricing model, or entering a token volume, sets that field and otherwise changes only the cost. Selecting a tool selects it; a changed scenario reseeds the hours saved. |
| Calculator.MountedState | components/Calculator.tsx:71-91 | After mount the cost agrees with the selections and is 23 (not the initial 19). The fields hold the High Usage seeds 8/1/1 and the Copilot license "Business - Business". |
| Calculator.RunKeepsSettled | components/Calculator.tsx:122-144 | After any sequence of events from a settled panel, the cost per user still agrees with the selections. |
| Calculator.ToolChangeResetsLicense | components/Calculator.tsx:113-120 | Switching to Copilot or Claude selects its default license, priced at 19 or 25. Switching to another tool keeps the old license string. |
| Calculator.ScenarioChangeReseeds | components/Calculator.tsx:85-91 | Changing the scenario overwrites exactly the hours saved and the token volumes with its seeds, and nothing else but the recomputed cost changes. Per seat, that cost is unchanged. |
| Calculator.ShowLicenseType | components/Calculator.tsx:146-147 | The license dropdown shows exactly when per-seat pricing has license options to offer. |
| Calculator.MountedDashboard | components/Calculator.tsx:71-83 | The mounted defaults give $228,800 of savings against a tool cost of 11,960 / 4.33, a finite ROI, and the grade "Excellent Investment". |
| CategoryNavigation.TrimStart | components/CategoryNavigation.tsx:43 | The result is a suffix of the input. Everything cut is whitespace, and the result does not start with whitespace. |
| CategoryNavigation.TrimEnd | components/CategoryNavigation.tsx:43 | The result is a prefix of the input. Everything cut is whitespace, and the result does not end with whitespace. |
| CategoryNavigation.Trim | components/CategoryNavigation.tsx:43 | A trimmed title neither starts nor ends with whitespace. |
| CategoryNavigation.TrimIdempotent | components/CategoryNavigation.tsx:43 | Trimming twice equals trimming once. |
| CategoryNavigation.RemoveAll | components/CategoryNavigation.tsx:59 | The filtered list holds every other title exactly as often as before and the deleted title not at all. |
| CategoryNavigation.RemoveAllDistributes | components/CategoryNavigation.tsx:59 | Filtering a concatenation filters each part and keeps their order. |
| CategoryNavigation.RemoveAllSpec | components/CategoryNavigation.tsx:58-60 | Deleting removes the title and keeps exactly the other titles, in order. The list is unchanged when the title is absent. |
| CategoryNavigation.RemoveAllAbsent | components/CategoryNavigation.tsx:59 | Filtering out an absent title leaves the list unchanged. |
| CategoryNavigation.RemoveAllKeepsNoDuplicates | components/CategoryNavigation.tsx:59 | Filtering never introduces a duplicate. |
| CategoryNavigation.HandleTitleSelect | components/CategoryNavigation.tsx:36-40 | Selecting sets the selection and the input text to the title and closes the dropdown, leaving the list and the dialog alone. |
| CategoryNavigation.HandleSave | components/CategoryNavigation.tsx:42-56 | Text that trims to empty or to the placeholder changes nothing. Otherwise the trimmed text becomes the selection and is in the list. The old list stays a prefix, at most one title is added, and that title is the trimmed text. The input, dropdown and dialog are untouched. |
| CategoryNavigation.SaveAppendsNewTitle | components/CategoryNavigation.tsx:42-56 | An accepted save appends the trimmed text exactly when it is new, so it never introduces a duplicate. |
| CategoryNavigation.SaveIdempotent | components/CategoryNavigation.tsx:42-56 | Saving twice is the same as saving once. |
| CategoryNavigation.HandleDelete | components/CategoryNavigation.tsx:58-66 | Deleting removes the title and keeps every other title; the list never grows. The selection and input reset to the defaults exactly when the deleted title was selected; the dropdown and dialog are untouched. |
| CategoryNavigation.DeleteTarget | components/CategoryNavigation.tsx:175-177 | The Delete button targets the selection or the typed text. It targets the "nothing selected" entry only when that is both the selection and the typed text. |
| CategoryNavigation.Step | components/CategoryNavigation.tsx:36-66 | Only Save and a confirmed delete change the list, only a confirmed delete shrinks it, and the only title an interaction can add is the trimmed input. A confirmed delete removes the dialog's title and closes the dialog. |
| CategoryNavigation.DialogOutcomes | components/CategoryNavigation.tsx:213-269 | Confirming deletes the title the dialog was opened for and closes the dialog. Cancel and the backdrop only close it. |
| CategoryNavigation.DeleteClickedOpensDialog | components/CategoryNavigation.tsx:168-187 | The Delete button opens the dialog for the selected title, or for the typed text when nothing is selected, and changes nothing else. |
| CategoryNavigation.PickTitleSelectsIt | components/CategoryNavigation.tsx:118-121 | Picking the k-th title selects it, puts it in the input and closes the dropdown. The Delete button then targets that title, even the "nothing selected" entry. |
| CategoryNavigation.DeleteThenConfirm | components/CategoryNavigation.tsx:175-183 | Delete then confirm removes the selected title, or else the typed text. The selection falls back to "nothing selected" exactly when a real selection was deleted. |
| CategoryNavigation.StepKeepsNoDuplicates | components/CategoryNavigation.tsx:42-66 | No single interaction introduces a duplicate title. |
| CategoryNavigation.RunKeepsNoDuplicates | components/CategoryNavigation.tsx:42-66 | No sequence of interactions introduces a duplicate title. |
| CategoryNavigation.InitialHasNoDuplicates | components/CategoryNavigation.tsx:12-18 | The five initial titles are distinct. |
| SmartTooltip.CalculatePosition | components/SmartTooltip.tsx:52-89 | The tooltip never starts above the top padding or left of the left padding. On mobile and tablet it is pinned to the left padding. On desktop, a tooltip that fits between the paddings keeps its right edge inside the right padding. |
| SmartTooltip.DesktopAnchorsToTrigger | components/SmartTooltip.tsx:61-84 | On desktop the tooltip sits 8 px below the trigger and is left-aligned with it when that fits. It flips above the trigger exactly when it would cross the bottom padding. |
| SmartTooltip.MobileIgnoresTrigger | components/SmartTooltip.tsx:64-67 | On mobile and tablet the tooltip is pinned to the left padding and centred vertically, independent of the trigger. |
| SmartTooltip.OpenIsCurrentImpliesAtMostOne | components/SmartTooltip.tsx:12-14 | If every open tooltip is the recorded open one, at most one tooltip is open. |
| SmartTooltip.HandleOpen | components/SmartTooltip.tsx:113-122 | Opening closes every other registered tooltip, records this one as open, and keeps the registrations; afterwards the opened tooltip is the only open one. The other tooltips lose only their open and hover flags, and the opened one changes only its open flag. |
| SmartTooltip.HandleClose | components/SmartTooltip.tsx:103-110 | Closing closes only this tooltip, and clears the open id only when it is this tooltip's. |
| SmartTooltip.HandleToggle | components/SmartTooltip.tsx:125-132 | Toggling flips the open flag, an open by toggling never counts as a hover open, and the open tooltip stays the recorded one. |
| SmartTooltip.HandleMouseEnter | components/SmartTooltip.tsx:210-223 | On desktop, entering cancels a pending close and leaves the tooltip open; a closed tooltip opens as a hover open and becomes the recorded one. On mobile nothing changes. |
| SmartTooltip.HandleMouseLeave | components/SmartTooltip.tsx:225-234 | Leaving opens or closes nothing. On desktop it schedules a close exactly for a tooltip opened by hovering; on mobile it does nothing. |
| SmartTooltip.HoverTimerFires | components/SmartTooltip.tsx:225-234 | The hover-out timer closes a tooltip whose close is pending and clears the pending flag; otherwise it changes nothing. |
| SmartTooltip.Measure | components/SmartTooltip.tsx:91-100 | Measuring an open tooltip marks it positioned inside the top and left paddings, and opens or closes nothing. |
| SmartTooltip.Step | components/SmartTooltip.tsx:40-49 | Only mounting and unmounting change which tooltips are registered, and every event keeps each open tooltip recorded as the open one. |
| SmartTooltip.RunKeepsAtMostOneOpen | components/SmartTooltip.tsx:113-122 | No sequence of mounts, hovers, clicks, dismissals and measurements ever leaves two tooltips open. |
| PricingTables.ToggleCard | components/PricingTables.tsx:13-15 | Toggling collapses the accordion exactly when the card was the expanded one, and otherwise expands that card alone. |
| PricingTables.InitialToggles | components/PricingTables.tsx:11-15 | The accordion starts with the scenarios card expanded: toggling it collapses everything, and toggling the pricing card expands that card instead. |
| PricingTables.ToggleTwice | components/PricingTables.tsx:13-15 | Toggling the same card twice restores the accordion exactly when that card or nothing was expanded. |
| PricingTables.ScenarioRowsMatchCalculator | components/PricingTables.tsx:85-137 | Both scenario views list exactly the calculator's scenario seeds, in the dropdown's order. |
| PricingTables.DesktopPricesMatchCalculator | components/PricingTables.tsx:225-235 | Every desktop pricing row shows the calculator's price for its tool and kind. |
| PricingTables.PriceRowsMatchCalculator | components/PricingTables.tsx:225-262 | Both pricing views show the calculator's prices, and they list the same rows in the same order apart from the API labels. |
| PricingTables.PriceRowsCoverage | components/PricingTables.tsx:225-262 | Claude, OpenAI and Gemini are listed with all three prices. Copilot is listed only with its $19 seat, although the calculator also holds API prices of 10 and 10 for it. The tools appear in the order of the calculator's tool dropdown (components/Calculator.tsx:59). |

## Left out

- Rendering: the JSX layout, the dark mode and the theme classes are not modelled, and neither is the `toLocaleString`/`toFixed` formatting.
- Roi.Advice: keeps the advice wording but drops the ROI figure together with the words that frame it ("X% of", "of X%").
- Floating point: all arithmetic is exact (`real`), so 4.33 is exactly 433/100 and there is no rounding. A zero divisor is taken as +0, so signed zero is not modelled.
- Number entry: the inputs' `Number(e.target.value)` parsing is not modelled, and neither are their `min`/`max` attributes (components/Calculator.tsx:259-260 and 276-277), which the browser does not enforce on typed values. Entered values reach the model as reals.
- Tools, pricing models and scenarios are datatypes. The selects only offer those values, so lookups with other strings cannot happen.
- Lookups of `LICENSE_DATA` with keys inherited from `Object.prototype` (such as `constructor`) are not modelled. The lookup sees only the table's own entries.
- `Trim` removes a fixed set of whitespace characters. The remaining Unicode space separators (U+1680, U+2000–U+200A, U+202F, U+205F, U+3000) are not modelled.
- React scheduling: effects are modelled as the settled state after each event. Intermediate renders, such as a render with a new tool and the old cost, are not modelled.
- Timers: the 150 ms hover-out close and the 100 ms delay before the outside-click listener are discrete events (`HoverTimer`, `Dismiss`) without durations. A click during that 100 ms window is not distinguished.
- DOM access: the bounding rectangles and window size are parameters of `SmartTooltip.CalculatePosition`, and the mobile flag is a parameter of each event: the `innerWidth < 1024` test that sets it on mount and on resize (components/SmartTooltip.tsx:28-37) is not modelled, and neither are the body scroll lock and portal rendering.
- Tooltip ids: `Math.random` ids are not modelled; ids are given. Two mounted tooltips sharing one id are not modelled: a second `Mount` of a registered id is a no-op. Events for unregistered ids change nothing.
- Escape, the outside click, the backdrop and the close button all run `handleClose` while the tooltip is open, so they are one `Dismiss` event.
- The dropdown's outside-click listener is a `ClickOutsideDropdown` event; hit-testing the click target is not modelled.
- `console.log` calls and the `isMounted` flag are not modelled; they have no effect on state.
- App.tsx, which only composes the components, is not part of this model.
