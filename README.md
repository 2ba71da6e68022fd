# Portfolio site logic in Dafny

This project models the sequential logic of a Next.js portfolio site and
proves properties about it. The site's chat assistant and terminal route
free text to page sections and keep a transcript. Its skills graph is
recoloured and filtered before it is drawn. A country map projects
longitude and latitude onto an SVG canvas and places work-location pins.
A projects list offers technology filters. A contact form validates its
fields. A typewriter reveals the terminal's welcome text. Two input boxes
guard what they send. A small configuration builds the API URLs.

There is one Dafny module per source file:

| module | source file | form |
|---|---|---|
| `Navigation` | `src/utils/navigation.ts` | functions and lemmas over the constant keyword table |
| `UseChat` | `src/hooks/useChat.ts` | spec functions plus the class `ChatSession` |
| `ChatContext` | `src/context/ChatContext.tsx` | spec functions plus the class `ChatProvider` |
| `GraphInitializer` | `src/components/skills/GraphInitializer.tsx` | methods with loops building a map and an edge list |
| `SkillsGraph` | `src/hooks/useSkillsGraph.ts` | the recolouring function plus the class `SkillsGraphLoader` |
| `LocationMap` | `src/components/maps/LocationMap.tsx` | the transform as a function; `findBounds`, `generateSvgPath` and the city loop as methods; the class `LocationMapState` |
| `ProjectsSection` | `src/components/sections/ProjectsSection.tsx` | the nested-loop `AllTechnologies` method and the filter function |
| `UseProjects` | `src/hooks/useProjects.ts` | the featured filter plus the class `ProjectsStore` |
| `Contact` | `src/components/sections/ContactSection.tsx` | the validation functions plus the class `ContactForm` |
| `Typewriter` | `src/hooks/useTypewriter.ts` | the step functions plus the class `TypewriterHook` |
| `ChatInput` | `src/components/chat/ChatInput.tsx` | the guard functions plus the class `ChatInputBox` |
| `Terminal` | `src/components/terminal/Terminal.tsx` | the guard function plus the class `TerminalInput` |
| `ApiConfig` | `src/config/api.ts` | functions |

Three helper modules support them:
- `Common` holds `Option`.
- `Text` models the JavaScript string operations the site uses: `trim` over the ECMAScript whitespace set, `toLowerCase` and `toUpperCase`, and `includes`.
- `Seqs` defines filter, subsequence and first-occurrence dedup over sequences.

Each stateful hook or component is a class whose fields are the React state.
Each method's `ensures` ties the new state to a pure step function of the
old state. The properties are proved as lemmas about those step functions.
Asynchronous work is split at its `await` or timer into two steps. The
outcome of the network call is a parameter of the second step.

Four points about the code that the model follows:
- The chat request and reply are those of `src/hooks/useChat.ts`. `src/types/chat.ts:26-39` declares a request with `message`, `conversation_history` and `session_id`, and a response with `answer`, `sources` and `blocked`. But `useChat.ts:75-78` sends only `userMessage` and `thread`, and `useChat.ts:93-108` reads only `assistantMessage` and `navTarget`.
- The skills graph is prepared from data bundled with the page (`src/hooks/useSkillsGraph.ts:6`); nothing is fetched. A failure is whatever the preparation throws (`useSkillsGraph.ts:44-47`).
- A pin's city is looked up under its lowercase name, then under the capitalised name, and only then falls back to the centre of the canvas (`src/components/maps/LocationMap.tsx:209-211`).
- A non-OK chat response throws (`useChat.ts:89-91`), so it takes the same path as a transport failure (`useChat.ts:110-122`).

## Model

| member | source | states |
|---|---|---|
| Navigation.SectionIds | src/utils/navigation.ts:41-49 | There are exactly seven sections, in the order home, about, projects, skills, experience, education, contact. Each lists its own id as its first keyword. |
| Navigation.Normalize | src/utils/navigation.ts:38 | Reference definition of `query.toLowerCase().trim()`; its properties are in `NormalizeIsNormal` and the lemmas below. |
| Navigation.NormalizeIsNormal | src/utils/navigation.ts:38 | The normalised query is its own lowercase form and its own trim, so normalising twice changes nothing. |
| Navigation.GetSectionIdFromQuery | src/utils/navigation.ts:37-76 | The result is null or one of the seven section ids. A query whose lowercased, trimmed form is a section id returns that id. |
| Navigation.Route | src/utils/navigation.ts:51-75 | For any table: an exact key is returned as is. Any other result is a key of the table or the `projects` fallback. |
| Navigation.FirstMatch | src/utils/navigation.ts:57-61 | The partial-match scan only ever yields a key of the table. |
| Navigation.FirstMatchIsFirst | src/utils/navigation.ts:57-61 | If entry k has a keyword in the query and no earlier entry does, the scan returns entry k's key. |
| Navigation.FirstMatchFound | src/utils/navigation.ts:57-61 | A scan result has a keyword in the query and no earlier entry has one. An empty scan means no entry has one. |
| Navigation.RouteNoneIff | src/utils/navigation.ts:51-75 | For a self-named table, the result is null exactly when no keyword and no fallback word occurs. Fallback words alone give `projects`. |
| Navigation.FirstSectionInTableOrderWins | src/utils/navigation.ts:44-61 | A query that is not a bare section id goes to the first section, in table order, one of whose keywords it contains. |
| Navigation.ScanResultIsFirstMatch | src/utils/navigation.ts:57-61 | Conversely, the section the scan returns has a keyword in the query, and no earlier section has one. |
| Navigation.TechWordsFallBackToProjects | src/utils/navigation.ts:64-72 | With no table keyword present, any of react/typescript/next/frontend/web sends the query to `projects`. |
| Navigation.NoSectionIffNoKeyword | src/utils/navigation.ts:57-75 | The result is null if and only if neither a table keyword nor a technology word occurs in the normalised query. |
| Navigation.NormalizedQueryRoutesAlike | src/utils/navigation.ts:38 | Routing the lowercased, trimmed query gives the same result as routing the query. |
| Navigation.CaseDoesNotMatter | src/utils/navigation.ts:38 | Upper-casing a query never changes its section. |
| Navigation.SurroundingSpaceDoesNotMatter | src/utils/navigation.ts:38 | Leading and trailing whitespace never changes the section. |
| Navigation.WorkHistoryGoesToProjects | src/utils/navigation.ts:44-46 | Any query that normalises to "work history" goes to `projects`, not `experience`: `work` is a projects keyword, and projects comes first in the table. |
| Navigation.WorkHistoryIsNormalized | src/utils/navigation.ts:38 | "work history" is already in normal form, so the lemma above covers the literal query. |
| Navigation.NavigateToSectionByQuery | src/utils/navigation.ts:84-94 | Success exactly when a section was found and the page has its element. The scroll target is then that section. |
| Navigation.NoSectionNoScroll | src/utils/navigation.ts:88-93 | A query that maps to null returns false and scrolls nowhere. |
| UseChat.FilterMessage | src/hooks/useChat.ts:18-38 | The input is rejected if and only if its lowercase form contains one of the five terms. A rejection returns the refusal text; otherwise the input comes back unchanged. |
| UseChat.FilterIgnoresCase | src/hooks/useChat.ts:25-28 | Upper-casing an input never changes whether it is rejected. |
| UseChat.Submit | src/hooks/useChat.ts:40-78 | Blank input leaves the state unchanged and sends nothing. A rejected input appends the user message and the refusal, leaves the hook idle, and sends nothing. Otherwise the user message is appended, the hook is loading with no error, and the request thread is the prior messages plus the user message. |
| UseChat.Reply | src/hooks/useChat.ts:89-125 | Appends exactly one assistant message and ends not loading. On success the message is the backend's text and the error is kept. On failure it is the apology, with the send-failed error. `onNavigate` is called with `navTarget` exactly when both are present. |
| UseChat.Clear | src/hooks/useChat.ts:128-131 | Empties the transcript and clears the error, leaving the loading flag. |
| UseChat.SendAddsUserThenAssistant | src/hooks/useChat.ts:53-125 | Whatever the backend does, a non-blank send leaves the prior messages intact. It adds exactly two messages, the user's input then one assistant reply, and ends not loading. |
| UseChat.RefusedInputMakesNoRequest | src/hooks/useChat.ts:59-72 | An input containing an inappropriate term makes no request. The message after the user's is the refusal. |
| UseChat.ChatSession.constructor | src/hooks/useChat.ts:12-15 | Starts from the initial messages, not loading, with no error. |
| UseChat.ChatSession.SendMessage | src/hooks/useChat.ts:40-78 | The new state and the request are those of `Submit`. |
| UseChat.ChatSession.ReceiveReply | src/hooks/useChat.ts:89-125 | The new state and the navigation target are those of `Reply`. |
| UseChat.ChatSession.ClearMessages | src/hooks/useChat.ts:128-131 | The new state is that of `Clear`. |
| ChatContext.FirstKeywordFrom | src/context/ChatContext.tsx:55-65 | Returns the first keyword index from i on that the text contains. No earlier one from i is contained; none means no keyword from i is contained. |
| ChatContext.SimulatedReply | src/context/ChatContext.tsx:51-79 | No keyword gives the default sentence. The first keyword in the order help, about, skills, projects, contact that the lowercased input contains selects that keyword's reply for the current mode. |
| ChatContext.RepliesDiffer | src/context/ChatContext.tsx:51-79 | No terminal reply equals a chat reply, and neither equals the default sentence. |
| ChatContext.HelpComesFirst | src/context/ChatContext.tsx:55-56 | An input containing `help` gets the help reply whatever else it mentions. |
| ChatContext.ModesNeverShareAReply | src/context/ChatContext.tsx:54-78 | The terminal and chat modes never give the same keyword reply, for any two inputs. |
| ChatContext.Send | src/context/ChatContext.tsx:26-47 | Blank input leaves the state unchanged. A terminal `clear` (case-insensitive, untrimmed) empties the transcript, ends loading and schedules nothing. Otherwise the user message is appended, loading is set, and a reply is scheduled. |
| ChatContext.Deliver | src/context/ChatContext.tsx:50-91 | The timer appends exactly one assistant message holding the simulated reply, and loading ends. |
| ChatContext.Clear | src/context/ChatContext.tsx:95-97 | Empties the transcript and leaves the loading flag. |
| ChatContext.SendThenDeliver | src/context/ChatContext.tsx:26-91 | A non-blank send that is not the terminal `clear` ends, after its timer, with exactly the user message and one reply appended, and not loading. |
| ChatContext.ClearCommandOnlyInTerminal | src/context/ChatContext.tsx:43-47 | `clear` in the terminal empties the transcript and schedules nothing. In the chat window it schedules an ordinary reply, which is the default sentence. |
| ChatContext.ChatProvider.constructor | src/context/ChatContext.tsx:21-23 | Starts from the initial messages, not loading. |
| ChatContext.ChatProvider.SendMessage | src/context/ChatContext.tsx:26-47 | The new state and the scheduled reply are those of `Send`. |
| ChatContext.ChatProvider.DeliverReply | src/context/ChatContext.tsx:50-91 | The new state is that of `Deliver`. |
| ChatContext.ChatProvider.ClearMessages | src/context/ChatContext.tsx:95-97 | The new state is that of `Clear`. |
| GraphInitializer.OrNumber | src/components/skills/GraphInitializer.tsx:32 | `v \|\| fallback` on a number: a missing value or 0 gives the fallback. |
| GraphInitializer.OrString | src/components/skills/GraphInitializer.tsx:33 | `v \|\| fallback` on a string: a missing value or "" gives the fallback. |
| GraphInitializer.Position | src/components/skills/GraphInitializer.tsx:30-31 | A truthy coordinate is kept; a missing or zero one is drawn at random (`None`). |
| GraphInitializer.Attrs | src/components/skills/GraphInitializer.tsx:27-34 | Copies the label and type. A falsy coordinate is left to be drawn at random. A missing or zero size defaults to 15 for categories and 8 otherwise; a missing colour defaults to #4f46e5 for categories and #94a3b8 otherwise. |
| GraphInitializer.Added | src/components/skills/GraphInitializer.tsx:39-43 | Reference definition: the edge added for a source edge, with its endpoints, id and relationship. |
| GraphInitializer.AddedEdges | src/components/skills/GraphInitializer.tsx:38-45 | An edge is added exactly when it is not hidden and both its endpoints are present. Every added edge's endpoints are present. |
| GraphInitializer.AddNodes | src/components/skills/GraphInitializer.tsx:22-35 | The graph's node ids are exactly those of the non-hidden nodes, each with its computed attributes. |
| GraphInitializer.AddEdges | src/components/skills/GraphInitializer.tsx:38-45 | The loop adds, in order, exactly the edges of `AddedEdges`. |
| GraphInitializer.BuildGraph | src/components/skills/GraphInitializer.tsx:17-48 | The graph holds exactly the non-hidden nodes with their attributes. It holds the non-hidden edges between them, in order, and no edge dangles. |
| SkillsGraph.Prepare | src/hooks/useSkillsGraph.ts:28-43 | The stored graph has the recoloured nodes, and its edges are exactly those loaded. |
| SkillsGraph.ColorFor | src/hooks/useSkillsGraph.ts:9-13 | `root` gets #1fd38d and `category` gets #61e7b9; every other type gets #a0f0d3. |
| SkillsGraph.Recolor | src/hooks/useSkillsGraph.ts:28-35 | Keeps the number and order of nodes and every field but the colour. The colour becomes the one for the node's type. |
| SkillsGraph.RecolorIdempotent | src/hooks/useSkillsGraph.ts:28-35 | Recolouring twice is recolouring once. |
| SkillsGraph.IncomingColorIgnored | src/hooks/useSkillsGraph.ts:28-35 | Lists that differ only in their incoming colours recolour to the same list. |
| SkillsGraph.SkillsGraphLoader.constructor | src/hooks/useSkillsGraph.ts:19-21 | Starts loading, with no graph and no error. |
| SkillsGraph.SkillsGraphLoader.Load | src/hooks/useSkillsGraph.ts:23-48 | On success the graph is the recoloured nodes with the edges unchanged. On a throw the error is set and the graph stays. Loading ends false either way. |
| SkillsGraph.Mount | src/hooks/useSkillsGraph.ts:18-48 | After the mount effect, a failed preparation leaves no graph and an error. A successful one leaves the prepared graph and no error. |
| LocationMap.Transform | src/components/maps/LocationMap.tsx:57-71 | Reference definition of `transformCoordinate`. `TransformCorners`, `TransformInCanvas` and `TransformMonotone` state what it promises. |
| LocationMap.MapFrame | src/components/maps/LocationMap.tsx:140-145 | Both scales are positive. Each stretches its axis of the box over the 700 units between the paddings. |
| LocationMap.TransformCorners | src/components/maps/LocationMap.tsx:57-71 | The box's minimum corner lands on (50,750) and its maximum corner on (750,50). |
| LocationMap.TransformInCanvas | src/components/maps/LocationMap.tsx:57-71 | Every point of the box lands inside [50,750]×[50,750]. |
| LocationMap.TransformMonotone | src/components/maps/LocationMap.tsx:68-69 | x increases with longitude and y decreases with latitude. |
| LocationMap.Include | src/components/maps/LocationMap.tsx:82-85 | The widened box contains the new position. |
| LocationMap.BoundsOf | src/components/maps/LocationMap.tsx:74-91 | A box exists exactly when there is at least one position. |
| LocationMap.BoundsOfIsTight | src/components/maps/LocationMap.tsx:74-91 | Every position lies in the box, and each of its four sides is attained by some position. |
| LocationMap.WidenByRing | src/components/maps/LocationMap.tsx:79-86 | The ring loop yields the box of everything seen so far plus the ring. |
| LocationMap.FindBounds | src/components/maps/LocationMap.tsx:74-91 | The triple loop computes the box of every position of every ring of every polygon. |
| LocationMap.PointCommands | src/components/maps/LocationMap.tsx:110-119 | One or two commands per position: a move exactly for the first position, and a close after exactly the last. |
| LocationMap.RingPathUpTo | src/components/maps/LocationMap.tsx:107-120 | The first k positions emit k commands, plus the close once the whole non-empty ring is done. |
| LocationMap.RingPath | src/components/maps/LocationMap.tsx:107-120 | A non-empty ring emits one command per position plus a close; an empty ring emits none. |
| LocationMap.PolygonPath | src/components/maps/LocationMap.tsx:105-121 | Reference definition of a polygon's commands: its rings in order, each move spaced except the very first of polygon 0. |
| LocationMap.SvgPath | src/components/maps/LocationMap.tsx:94-126 | Reference definition of the whole path: every polygon's commands, in order. |
| LocationMap.RingPathShape | src/components/maps/LocationMap.tsx:107-120 | A ring's commands are a move to its first point, a line to each later point, and a close. An empty ring emits nothing. |
| LocationMap.RingPathMoves | src/components/maps/LocationMap.tsx:112-113 | A ring opened with a leading space has only spaced moves. A ring's only possible unspaced move is its first command. |
| LocationMap.PolygonPathMoves | src/components/maps/LocationMap.tsx:105-113 | Every move after polygon 0 is spaced. Within a polygon, only its first command may be unspaced. |
| LocationMap.SvgPathMoves | src/components/maps/LocationMap.tsx:105-123 | In the whole path, only the very first command may be a move without a leading space. |
| LocationMap.EmitRing | src/components/maps/LocationMap.tsx:107-121 | The position loop emits exactly the ring's commands. |
| LocationMap.GenerateSvgPath | src/components/maps/LocationMap.tsx:94-126 | The nested loops emit, polygon by polygon and ring by ring, exactly the specified commands. |
| LocationMap.CityPointOf | src/components/maps/LocationMap.tsx:157-169 | A city's canvas point is the transform of its position, and its raw coordinates are kept. |
| LocationMap.CityPointsOf | src/components/maps/LocationMap.tsx:151-171 | A name is in the table exactly when some feature with a location and a point geometry carries it. |
| LocationMap.LastCityWins | src/components/maps/LocationMap.tsx:164-169 | A name's entry is the point of the last feature with that name. |
| LocationMap.LastNamed | src/components/maps/LocationMap.tsx:154-171 | Every named city has a last feature carrying its name. |
| LocationMap.CitiesInCanvas | src/components/maps/LocationMap.tsx:154-171 | Cities whose positions lie in the outline's box land inside the padded canvas. |
| LocationMap.CityPoints | src/components/maps/LocationMap.tsx:154-171 | The loop builds exactly the specified table. |
| LocationMap.FrameOf | src/components/maps/LocationMap.tsx:135-145 | A drawable map's frame has positive scales. |
| LocationMap.LocationMapState.constructor | src/components/maps/LocationMap.tsx:51-54 | Starts with an empty path and no cities. |
| LocationMap.LocationMapState.RunEffect | src/components/maps/LocationMap.tsx:129-179 | With no features nothing changes. Otherwise it stores the outline's path and the cities of the features after the first, all in the frame of the outline's box. |
| LocationMap.LastSegment | src/components/maps/LocationMap.tsx:205 | `split(',').pop()`: the result has no comma and is a suffix of the input, preceded by a comma when shorter. |
| LocationMap.LastSegmentAfterComma | src/components/maps/LocationMap.tsx:205 | Only the text after the last comma counts. |
| LocationMap.CityNameOf | src/components/maps/LocationMap.tsx:205 | A pin's city name has no comma. |
| LocationMap.Capitalize | src/components/maps/LocationMap.tsx:210 | Upper-cases the first character and keeps the rest. |
| LocationMap.PinPosition | src/components/maps/LocationMap.tsx:209-211 | Tries the lowercase name, then the capitalised one, then the fallback (400,400). |
| LocationMap.PinAtCityOrFallback | src/components/maps/LocationMap.tsx:209-211 | A pin is drawn at some stored city or at the fallback, never elsewhere. |
| ProjectsSection.Stacks | src/components/sections/ProjectsSection.tsx:12-13 | A technology is listed exactly when some project's stack has it. |
| ProjectsSection.AllTechnologies | src/components/sections/ProjectsSection.tsx:12-19 | The result has no duplicates, holds exactly the technologies of some project's stack, and is in order of first appearance. |
| ProjectsSection.FilteredProjects | src/components/sections/ProjectsSection.tsx:22-24 | No filter, or the falsy empty filter, shows every project unchanged. Any other filter shows exactly the projects whose stack has it, in their original order, as a subsequence. |
| ProjectsSection.FilterButtonsNeverEmpty | src/components/sections/ProjectsSection.tsx:12-24 | Filtering by any offered technology shows at least one project. |
| UseProjects.FeaturedProjects | src/hooks/useProjects.ts:23 | Exactly the featured projects, in order, as a subsequence of the list, as many as the list has, duplicates included. |
| UseProjects.ErrorMessage | src/hooks/useProjects.ts:17-19 | A non-OK response gives 'Failed to fetch projects data'. A throw gives its message, or the unknown-error text. |
| UseProjects.ProjectsStore.constructor | src/hooks/useProjects.ts:5-8 | Starts loading, with empty lists and no error. |
| UseProjects.ProjectsStore.Settle | src/hooks/useProjects.ts:12-28 | The featured list stays derived from the project list. Success stores the fetched list; failure records the error and keeps the lists. Loading ends false. |
| UseProjects.Mount | src/hooks/useProjects.ts:10-32 | After the mount fetch settles, success shows the fetched and featured lists with no error. Failure leaves both lists empty and records the error: the non-OK message, or the thrown message, or the unknown-error text. |
| Contact.EmailRegexMatches | src/components/sections/ContactSection.tsx:31-32 | Reference definition of `^[^\s@]+@[^\s@]+\.[^\s@]+$`: some `@` and a later `.` split the string into three non-empty runs without whitespace or `@`. |
| Contact.ValidEmail | src/components/sections/ContactSection.tsx:31-32 | The executable email check. An accepted address has an `@` and no whitespace. |
| Contact.IndexOf | src/components/sections/ContactSection.tsx:31 | Returns the first index of a character, or none when the character is absent. |
| Contact.EmailCheckIsRegex | src/components/sections/ContactSection.tsx:31-32 | The spelled-out check accepts exactly the strings that `^[^\s@]+@[^\s@]+\.[^\s@]+$` matches. |
| Contact.PaddedEmailFails | src/components/sections/ContactSection.tsx:25-32 | A leading or trailing space makes the email fail, because it is tested untrimmed. |
| Contact.WithField | src/components/sections/ContactSection.tsx:16-19 | Only the named field changes. |
| Contact.Validate | src/components/sections/ContactSection.tsx:24-35 | A blank field gives 'All fields are required', even with a bad email. Otherwise an email that does not match gives the invalid-email error. The form passes exactly when all fields are non-blank and the email matches. |
| Contact.SubmitDisabled | src/components/sections/ContactSection.tsx:228 | The button is disabled exactly while submitting or showing success. |
| Contact.ContactForm.constructor | src/components/sections/ContactSection.tsx:8-14 | Starts with empty fields, idle, and no error. |
| Contact.ContactForm.HandleChange | src/components/sections/ContactSection.tsx:16-19 | Updates only the named field; status and error stay. |
| Contact.ContactForm.HandleSubmit | src/components/sections/ContactSection.tsx:21-38 | A rejected form keeps its fields and status and shows the validation error. An accepted one moves to submitting. |
| Contact.ContactForm.CompleteSubmission | src/components/sections/ContactSection.tsx:43-45 | Clears all three fields and the error, and shows success. |
| Contact.ContactForm.ResetStatus | src/components/sections/ContactSection.tsx:48-50 | Returns to idle and changes nothing else. |
| Typewriter.Reset | src/hooks/useTypewriter.ts:19-52 | Corrected: a text change empties the display, zeroes the index, clears done and stops the interval. |
| Typewriter.ResetShowsOnlyNewText | src/hooks/useTypewriter.ts:19-52 | After a corrected text change, however many ticks follow the start, the display is a prefix of the new text. |
| Typewriter.ResetAsWritten | src/hooks/useTypewriter.ts:19-52 | As written: a text change resets the display, index and done, but every interval already set stays set. |
| Typewriter.StartAsWritten | src/hooks/useTypewriter.ts:26-47 | As written: an empty text is done; any other adds one interval bound to the current text. |
| Typewriter.TickAsWritten | src/hooks/useTypewriter.ts:34-46 | As written: a tick advances the shared index and shows a prefix of the interval's own text. At that text's end it reports done, keeps the index and display, and removes exactly itself from the running intervals. |
| Typewriter.LeakedIntervalShowsOldText | src/hooks/useTypewriter.ts:34-52 | Type `a` of "abc", change the text to "xy", and the leaked interval's next tick shows "a" at index 1 of "xy": not a prefix of the text. |
| Typewriter.Start | src/hooks/useTypewriter.ts:26-34 | An empty text is done at once without ticks. Any other text starts the interval. The invariant is kept. |
| Typewriter.Tick | src/hooks/useTypewriter.ts:34-46 | Before the end a tick advances the index by one. At the end it sets done, keeps the index and stops. The display stays the text's first `currentIndex` characters. |
| Typewriter.Ticks | src/hooks/useTypewriter.ts:34-46 | Any number of ticks keeps the invariant and the text. |
| Typewriter.TicksFinish | src/hooks/useTypewriter.ts:38-42 | From a running state, the remaining length plus one ticks show the whole text and finish. A further tick changes nothing. |
| Typewriter.StoppedStaysPut | src/hooks/useTypewriter.ts:38-42 | Without an interval, ticks change nothing. |
| Typewriter.TypesWholeText | src/hooks/useTypewriter.ts:19-46 | A fresh non-empty text is fully displayed and done after |text|+1 ticks. |
| Typewriter.Progress | src/hooks/useTypewriter.ts:58 | Progress is 1 for the empty text and otherwise lies in [0,1]. It is 0 at the start and 1 at the end. |
| Typewriter.TypewriterHook.constructor | src/hooks/useTypewriter.ts:15-23 | The first render is the reset state. |
| Typewriter.TypewriterHook.SetText | src/hooks/useTypewriter.ts:19-52 | Corrected: the new state is that of `Reset`, with the interval stopped. |
| Typewriter.TypewriterHook.StartTyping | src/hooks/useTypewriter.ts:26-34 | The new state is that of `Start`. |
| Typewriter.TypewriterHook.OnTick | src/hooks/useTypewriter.ts:34-46 | The new state is that of `Tick`. |
| ChatInput.SubmitMessage | src/components/chat/ChatInput.tsx:30-44 | Sends the trimmed message exactly when it is non-blank and the box is enabled, then empties the field. When nothing is sent the field is unchanged. |
| ChatInput.SentTextIsTrimmed | src/components/chat/ChatInput.tsx:33-35 | What is sent is non-empty, has no surrounding whitespace, and is its own trim. |
| ChatInput.KeyDown | src/components/chat/ChatInput.tsx:46-52 | Enter without Shift submits. Shift+Enter and every other key send nothing and keep the field. |
| ChatInput.SendButtonDisabled | src/components/chat/ChatInput.tsx:79 | The button is disabled exactly when the trimmed message is empty or the box is disabled. |
| ChatInput.ButtonEnabledIffSubmitSends | src/components/chat/ChatInput.tsx:33-79 | The button is enabled exactly when submitting would send. |
| ChatInput.ChatInputBox.constructor | src/components/chat/ChatInput.tsx:18 | Starts with an empty field. |
| ChatInput.ChatInputBox.HandleChange | src/components/chat/ChatInput.tsx:69 | The field takes the typed value. |
| ChatInput.ChatInputBox.HandleSubmit | src/components/chat/ChatInput.tsx:30-44 | The sent text and the new field are those of `SubmitMessage`. |
| ChatInput.ChatInputBox.HandleKeyDown | src/components/chat/ChatInput.tsx:46-52 | The sent text and the new field are those of `KeyDown`. |
| Terminal.SubmitInput | src/components/terminal/Terminal.tsx:46-53 | Sends the trimmed input exactly when it is non-blank and nothing is loading, then empties the input. When blank or loading, nothing is sent and the input is unchanged. |
| Terminal.InputFormShown | src/components/terminal/Terminal.tsx:106 | The input form is shown exactly when the typewriter is done. |
| Terminal.InputFormAppearsWhenTyped | src/components/terminal/Terminal.tsx:26-106 | There is no input form before typing starts. An empty message shows it right after the start delay. Any message shows it after one tick per character plus one. |
| Terminal.TerminalInput.constructor | src/components/terminal/Terminal.tsx:21 | Starts with an empty input. |
| Terminal.TerminalInput.HandleChange | src/components/terminal/Terminal.tsx:113 | The input takes the typed value. |
| Terminal.TerminalInput.HandleSubmit | src/components/terminal/Terminal.tsx:46-53 | The sent text and the new input are those of `SubmitInput`. |
| ApiConfig.EndpointPath | src/config/api.ts:12-16 | The fixed table, every path under `/api/`: profile→/api/profile, projects→/api/projects, skillsGraph→/api/skills-graph, chat→/api/chat. |
| ApiConfig.BaseUrl | src/config/api.ts:7 | The environment value when it is set and non-empty; otherwise http://localhost:3000. Never empty. |
| ApiConfig.GetApiUrl | src/config/api.ts:23-25 | The URL starts with the base URL, and the rest is the endpoint's path. |
| ApiConfig.DistinctEndpointsDistinctUrls | src/config/api.ts:12-24 | Two endpoints give the same URL if and only if they are the same endpoint. |

## Left out

- Ids and timestamps: messages are a role and a content. The uuid `id` and `Date.now()` `timestamp` are fresh opaque values that no modelled logic reads.
- Case mapping is ASCII-only: `toLowerCase` and `toUpperCase` change only `A`–`Z` and `a`–`z`. Unicode case mapping is not modelled.
- Typewriter.Tick, Typewriter.TicksFinish, Typewriter.TypesWholeText, Typewriter.Progress and Terminal.InputFormAppearsWhenTyped measure strings in Unicode characters. JavaScript's `length` and `slice` count UTF-16 code units (`useTypewriter.ts:38`, `:44`, `:58`). On text outside the Basic Multilingual Plane, the tick count, the partial display and the progress differ. For "a😀", the code takes 3+1 ticks, shows a lone surrogate after tick 2 and reports progress 2/3; the model takes 2+1 ticks.
- DOM work is not modelled: `scrollToSection`, focus handling, textarea auto-height and scrolling to the bottom. In `NavigateToSectionByQuery`, whether the page has the section's element is a parameter, and scrolling always succeeds when it has.
- Network calls are not modelled. The `fetch` calls in `useChat` and `useProjects` become outcome parameters, as does the chat route. `apiRequest` and `useProfile` are not part of this model.
- Typewriter.Reset and Typewriter.TypewriterHook.SetText model the evidently intended behaviour, in which a text change stops the running interval. The code leaves the interval running, and `ResetAsWritten` models that; see "## Findings". The same leak on a change of `delay` or `startDelay`, or on unmount, is not modelled.
- LocationMap.PinPosition: the city table is a map with no inherited keys. In the code it is a plain object (`LocationMap.tsx:151`, `:164`). There a pin whose city name is `constructor` or `__proto__` finds an inherited, truthy property and is drawn at an undefined position, not at the fallback. A data city named `__proto__` sets the prototype instead of adding an entry. Neither case is modelled.
- Timers are steps, not time: the start timeout and interval of the typewriter, the reply delay of the chat context, and the submit delay and status reset of the contact form.
- Concurrency is not modelled. Overlapping sends, and the stale `messages` closure that `useChat` builds its request thread from, are outside a sequential model. `Submit` uses the state current at the call.
- `UseChat.Reply` assumes `onNavigate` does not throw; a throwing callback would also append the apology.
- `Math.random()` node positions in the graph builder are modelled as `None`.
- Graph library errors are excluded by preconditions: `addNode` on a repeated id and `addEdge` on a repeated source and target pair both throw. `BuildGraph` requires unique visible ids and no repeated pair among the kept edges.
- LocationMap arithmetic is exact reals. IEEE rounding is not modelled, and neither is the printing of numbers in the path string: the path is a sequence of move, line and close commands. The empty box of infinities is `None`. A map whose outline box is empty or flat, which divides by zero in the source, is excluded by `RunEffect`'s precondition. So is a map whose outline is not a MultiPolygon: the code casts the first feature to one (`LocationMap.tsx:135`), and a Polygon outline then gives NaN bounds while a Point outline throws.
- The contact form's `catch` branch and its `error` status are not modelled: the awaited timer promise never rejects, so the branch cannot run.
- The skills graph's collapse and search mutators (toggling a category, filtering by a term) are not part of this model. Neither are the graph rendering components (sigma, vis-network) or the graph event handlers.
- Locale date formatting and all purely presentational components are not modelled.

## Findings

| source | as written | input that shows it | evidently intended | confidence | as-written member | corrected member |
|---|---|---|---|---|---|---|
| src/hooks/useTypewriter.ts:49-52 | The effect's cleanup only cancels the start timeout. The `clearInterval` cleanup is returned from the timeout callback and discarded, so a text change leaves a running interval ticking over the old text. | Text "abc"; one tick shows "a"; the text changes to "xy"; the old interval's next tick shows "a" at index 1 of "xy". | A text change stops the interval, so the display is always a prefix of the current text. | high; not executed | Typewriter.LeakedIntervalShowsOldText | Typewriter.ResetShowsOnlyNewText |
