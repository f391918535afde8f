# Adaptive practice: a Dafny model of the bookkeeping

The system is a coding-practice site. A learner reads a problem, answers a short
multiple-choice quiz, codes a solution against a timer and reports whether it passed. A Node
server keeps users and their stats and stores every interaction. A Python side service does
knowledge tracing: it keeps a registry of skill ids, logs one record per skill of each
attempt, prepares per-user training sequences, and reports mastery and recommendations. The
React client runs the solving session and the dashboard.

This project models that bookkeeping. Network, database and file I/O become parameters and
fields. What the neural model computes is not modelled.

| file | module | models |
|---|---|---|
| common.dfy | `Common` | `Option`, `Result`, slicing, filtering, and `Math.round` of a percentage on exact ratios |
| sorting.dfy | `Sorting` | a stable sort by a numeric key: sorted, a permutation, and equal keys kept in input order |
| schemas.dfy | `Schemas` | the Interaction and Problem documents: required fields, enums, defaults |
| gateway.dfy | `Gateway` | server/services/dktService.js: availability flag, record-then-forward, recommendations with fallback, analytics |
| server.dfy | `Server` | server/index.js: signup, login, the bearer-token middleware, the stats-updating interaction route |
| kt_data.dfy | `KtData` | dkt/model.py: `prepare_training_data` and `DKTDataset.__getitem__` |
| kt_service.dfy | `KtService` | dkt/api.py: skill registry, `add_interaction`, history, no-predictor fallbacks, training guards, routes |
| problem_context.dfy | `ProblemContext` | src/contexts/ProblemContext.tsx: fetch state and the clamped question index |
| mcq_section.dfy | `McqSection` | src/components/MCQSection.tsx: answer counting and the final score |
| session.dfy | `Session` | src/components/ProblemSolver.tsx: the phase machine, the timer switch, feedback and the posted events |
| timer.dfy | `Timer` | src/components/Timer.tsx: the seconds counter and `MM:SS` formatting |
| dashboard.dfy | `Dashboard` | `getSkillAreas` of src/components/Dashboard.tsx |

Objects whose fields the source updates are classes:
- the gateway, with its interaction store and sent pushes;
- the user store;
- the knowledge tracer, with its skill mapping and interaction log;
- the problem store;
- the quiz;
- the solving session;
- the timer.

Each of their methods states the whole new state. Pure code is functions with lemmas. The
two loops of dkt/model.py are methods with loop invariants, proved against specification
functions: `PrepareTrainingData` against `TrainingSequences`, and `GetItem` against
`InputAt`/`TargetAt`/`SkillAt`. The skill loop of `add_interaction` is the method
`AppendRecords`, proved against `RegisterAll` and `Expand`.

Some quirks of the code are modelled as they are, and proved:
- `solvedProblems` grows on every logged interaction, correct or not.
- The oracle's recommendations come back untruncated; only the fallback keeps five.
- Analytics see only the newest 100 interactions.
- Skill ids start at 1 and the model is built with `num_skills = len(skill_mapping)`
  (dkt/api.py:113). The one dataset construction (dkt/api.py:109) passes no `num_skills`;
  were the dataset given the same value as the model, it would always drop the skill with
  the highest id (`HighestSkillNeverTrained`).
- The quiz index is not reset by "Try Again". A retried quiz of two or more questions starts
  on its last question and scores below 80 (`RetryScenario`).

## Model

| member | source | states |
|---|---|---|
| `Common.RoundedPercent` | server/index.js:107 | `Math.round(c / n * 100)` as the nearest integer to 100c/n, halves up: within half a unit of 100c/n, at most 100 when c ≤ n, exactly 100 when c = n and 0 when c = 0 |
| `Common.TakeSubMultiset` | server/services/dktService.js:79 | `.limit(n)` and `.slice(0, n)` keep each element at most as often as the whole sequence holds it |
| `Sorting.SortBySorted` | server/services/dktService.js:79 | the sort used for `sort({ timestamp: -1 })` and the other sorts yields a sequence ordered by the key |
| `Sorting.SortByStable` | dkt/api.py:132 | for every key value, the elements with that key keep their input order (a stable sort); `SortBy` is also a permutation with the same length |
| `Sorting.InsertSorted` | dkt/api.py:132 | inserting into a sorted sequence keeps it sorted, the step the sort's order rests on |
| `Sorting.SortBy` | dkt/api.py:132 | defined here: a permutation of the same length; its order and stability are in `SortBySorted` and `SortByStable` |
| `Schemas.ParsePhase` | server/models/Interaction.js:11-15 | a phase is accepted exactly when it is one of reading, mcq, coding, completed, and it denotes the phase of that name |
| `Schemas.PhaseNameParses` | server/models/Interaction.js:13 | every phase's name passes the enum and denotes that phase |
| `Schemas.CreateInteraction` | server/models/Interaction.js:3-19 | validation succeeds exactly when userId, problemId, correct and a valid phase are present and no skill is empty. A failure names at least one path: the phase path iff the phase is bad, the correct path iff it is missing. A success copies the fields and defaults hintsUsed to 0, attempts to 1, skills to [] and timestamp to now |
| `Schemas.ParseDifficulty` | server/models/Problem.js:23-27 | accepted exactly for Easy, Medium, Hard, each denoting its own level |
| `Schemas.ParseCategory` | server/models/Problem.js:14-18 | accepted exactly for data-structure, algorithm, approach, each denoting its own category |
| `Schemas.ValidProblemMeans` | server/models/Problem.js:3-41 | the schema's own statement, definitional (the predicate unfolded with its enum lists written out): a problem is valid exactly when title, description, input format and output format are non-empty, the difficulty is Easy, Medium or Hard, every test case has input and output, every tag is non-empty, and every question has text, an explanation, non-empty options and an enum category; its use is in `ProblemTagsAreValidSkills` |
| `Schemas.ProblemTagsAreValidSkills` | src/components/ProblemSolver.tsx:38 | a valid problem's tags, sent as an interaction's skills, never fail the skills path; the interaction is then accepted exactly when user, problem, correctness and an enum phase are present, and keeps the tags as its skills |
| `Gateway.Fallback` | server/services/dktService.js:71-75 | the first min(5, n) problems, unchanged and in order |
| `Gateway.Candidates` | server/services/dktService.js:56-61 | one candidate per problem, in order, with its id, title, difficulty and `skills = tags` |
| `Gateway.PushMatchesStored` | server/services/dktService.js:35-41 | the forwarded payload carries the stored record's user, problem, skills, correctness and timestamp |
| `Gateway.OfUser` | server/services/dktService.js:79 | `find({ userId })` holds exactly the stored interactions of that user |
| `Gateway.NewestFirst` | server/services/dktService.js:79 | defined here (`sort({ timestamp: -1 })` of the user's interactions); its meaning is in `WindowOrdered` and `RecentWindowIsNewest` |
| `Gateway.RecentWindow` | server/services/dktService.js:79 | defined here (`.limit(100)` of the sorted interactions); its meaning is in `WindowMembers`, `WindowKeepsNewer` and `RecentWindowIsNewest` |
| `Gateway.WindowMembers` | server/services/dktService.js:79 | the window holds min(100, count) interactions, all of the user and from the store |
| `Gateway.WindowOrdered` | server/services/dktService.js:79 | the window is newest first |
| `Gateway.WindowKeepsNewer` | server/services/dktService.js:79 | an interaction of the user newer than a kept one is kept too |
| `Gateway.RecentWindowIsNewest` | server/services/dktService.js:79 | the window is exactly a newest-first top 100: size, membership, no interaction more often than the user has it, order, and nothing newer left out |
| `Gateway.AnalyticsOf` | server/services/dktService.js:80-98 | total is the window size; correct counts the correct ones and is at most total; accuracy is the rounded percentage (0 for an empty window) and at most 100; recent activity is the first min(10, total) of the window |
| `Gateway.OracleGateway.constructor` | server/services/dktService.js:8-12 | the gateway starts unavailable with the given store and nothing sent |
| `Gateway.OracleGateway.CheckAvailability` | server/services/dktService.js:14-27 | after a probe the flag equals its outcome, and a change is logged exactly when the flag flips |
| `Gateway.OracleGateway.RecordInteraction` | server/services/dktService.js:29-47 | the result is the validated interaction. It is stored before any forwarding, and a push is sent only when available. A validation error stores and sends nothing. A failed push changes nothing |
| `Gateway.OracleGateway.RecommendProblems` | server/services/dktService.js:49-69 | unavailable: the fallback, with no request. Available: the request maps the problems, a success returns the oracle's list as is, and a failure gives the fallback |
| `Gateway.OracleGateway.GetUserAnalytics` | server/services/dktService.js:77-103 | the analytics of the user's newest-100 window; mastery only when available and fetched, empty otherwise; total at most 100 and accuracy at most 100 |
| `Server.CorrectCount` | server/index.js:106 | the correct entries of a history are at most its length |
| `Server.CorrectCountAppend` | server/index.js:106 | the correct count of a concatenation is the sum of the counts |
| `Server.Accuracy` | server/index.js:106-107 | the recomputed accuracy is in 0..100, 100 for an all-correct history and 0 for an all-wrong one |
| `Server.AccuracyOrderIndependent` | server/index.js:106-107 | two histories holding the same entries, in any order, have the same length and the same accuracy |
| `Server.CorrectCountMultiset` | server/index.js:106 | the number of correct entries depends only on the multiset of entries |
| `Server.WithInteraction` | server/index.js:102-107 | the entry is appended last, `solvedProblems` grows by exactly 1 whatever `correct` is, accuracy is recomputed from the whole new history and lies in 0..100, id, name, email, password and avatar are kept, and stats consistent with the history stay consistent |
| `Server.FindByEmail` | server/index.js:46 | `findOne({ email })`: the first user with that email, or none when no user has it |
| `Server.BearerToken` | server/index.js:25 | `authorization?.split(' ')[1]` is absent exactly when there is no header or it has no space; otherwise it is the text after the first space up to the next space |
| `Server.AuthMiddleware` | server/index.js:24-36 | no or empty token gives 401 "No token"; a token that does not verify gives 401 "Invalid token"; it passes exactly when the token verifies, with the verified claims |
| `Server.UserStore.constructor` | server/index.js:9 | the user store starts empty and consistent |
| `Server.UserStore.Signup` | server/index.js:40-63 | a missing field gives 400 and no new user; an email in use gives 400 and no new user; otherwise exactly one user is appended, with the hashed password and the avatar URL, and is returned with 201 and its token. Emails stay distinct |
| `Server.UserStore.Login` | server/index.js:65-84 | missing fields give 400. An unknown email and a wrong password give the same "Invalid credentials" response. A matching password gives 200 with the user and its token |
| `Server.UserStore.LogInteraction` | server/index.js:87-116 | missing problemId or correct gives 400 and an unknown user 404, both without change; otherwise only that user changes, as `WithInteraction`, with 200 |
| `Server.UserStore.PostInteraction` | server/index.js:87-116 | the middleware runs first: a refused request gives its 401 and changes nothing, and no token gives "No token". A verified request has `LogInteraction`'s effect for the verified user id: 400 or 404 without change, otherwise only that user replaced by `WithInteraction`, with 200 |
| `KtData.UsersExact` | dkt/model.py:80-88 | the sequence keys are the distinct users of the input, each once, and every user of the input is among them |
| `KtData.StepsOfMeaning` | dkt/model.py:81-87 | a user's sequence is exactly their records that carry a skill id, in input order, each as (skill id, correct) |
| `KtData.StepsOfWellFormed` | dkt/model.py:84-87 | every step carries a skill id and its `correct` is 0 or 1 |
| `KtData.StepsOfAbsent` | dkt/model.py:85 | a user with no record so far has an empty sequence |
| `KtData.PrepareTrainingData` | dkt/model.py:79-88 | the loop returns one sequence per distinct user, in order of the user's first record. Each sequence is the user's steps, so a user whose records all lack a skill id keeps an empty sequence |
| `KtData.IndexOf` | dkt/model.py:85 | `user_id in user_sequences`: a position holding the user, or none when absent |
| `KtData.Users` | dkt/model.py:79-85 | defined here (the key order of `user_sequences`); its meaning is in `UsersExact` |
| `KtData.StepsOf` | dkt/model.py:81-87 | defined here (one user's sequence); its meaning is in `StepsOfMeaning`, `StepsOfWellFormed` and `StepsOfAbsent` |
| `KtData.TrainingSequences` | dkt/model.py:79-88 | defined here (`list(user_sequences.values())`); `PrepareTrainingData` is proved against it |
| `KtData.InputAt` | dkt/model.py:73 | defined here (one position of the input tensor); its meaning is in `EncodeInputInverse` and `MaskMarksUsable`, and `GetItem` is proved against it |
| `KtData.GetItem` | dkt/model.py:63-77 | three fresh arrays of exactly `max_seq_len` entries. A position past the sequence, or with no skill id, or with an id ≥ num_skills, is padding (0, 0.0, -1). Otherwise it holds `skill + num_skills·correct`, the outcome and the skill |
| `KtData.EncodeInputInverse` | dkt/model.py:73 | a valid encoded input lies below 2·num_skills, the embedding size, and its skill and outcome are its remainder and quotient by num_skills |
| `KtData.MaskMarksUsable` | dkt/model.py:67-75 | `skills != -1` marks exactly the usable positions; at each one the input decodes to that skill and the target is its outcome |
| `KtService.DefaultMapping` | dkt/api.py:36 | the default registry has the twenty listed skills in order, with ids 1..20, keys and ids distinct |
| `KtService.LookupMeans` | dkt/api.py:79 | a lookup succeeds exactly for the registry's keys, with the id stored under the key |
| `KtService.MaxId` | dkt/api.py:80 | `max(values) if mapping else 0`: 0 for an empty registry, and at least every id |
| `KtService.MaxIdAttained` | dkt/api.py:80 | the largest id of a non-empty registry belongs to one of its entries |
| `KtService.Register` | dkt/api.py:78-82 | defined here (one skill of the loop); its meaning is in `RegisterLookup` and `RegisterValid` |
| `KtService.RegisterAll` | dkt/api.py:78-82 | defined here (the registry after the loop); its meaning is in `RegisterAllMeans` |
| `KtService.Expand` | dkt/api.py:78-85 | defined here (the records the loop appends); its meaning is in `ExpandStable` and `AppendRecords` |
| `KtService.RegisterLookup` | dkt/api.py:78-82 | after registering, the skill is known. A new skill gets max + 1, which is 1 in an empty registry and above every id in use. Known skills keep their ids, and entries are only appended |
| `KtService.RegisterValid` | dkt/api.py:78-82 | registering keeps keys distinct and ids distinct, and keeps ids dense (entry k has id k + 1) |
| `KtService.RegisterAllMeans` | dkt/api.py:78-82 | after a list of skills, every listed skill is known, old ids are unchanged, the old entries come first, and distinctness and density are kept |
| `KtService.ExpandStable` | dkt/api.py:84 | the records of skills already registered do not change when the registry later grows |
| `KtService.AddStep` | dkt/api.py:78-85 | one loop turn registers the next skill and appends exactly its record, carrying its id |
| `KtService.AppendRecords` | dkt/api.py:78-85 | the loop ends with the registry after all skills, and the log extended by one record per listed skill, in order, each with its skill's id |
| `KtService.RecordsOf` | dkt/api.py:132 | the comprehension keeps exactly the user's records |
| `KtService.UserRecordsOrdered` | dkt/api.py:132 | the user's records come oldest first, and records with equal timestamps keep file order |
| `KtService.UserHistory` | dkt/api.py:127-133 | defined here (`get_user_history`); its meaning is in `UserHistoryMeans` |
| `KtService.UserHistoryMeans` | dkt/api.py:127-133 | no file gives no history. Otherwise the history is the user's records as a permutation, oldest first, in stable order, each reduced to (skill, correct) |
| `KtService.UniformMastery` | dkt/api.py:136 | without a predictor, every known skill and only those get 0.5 |
| `KtService.KnowledgeTracer.constructor` | dkt/api.py:16-60 | the stored mapping, or the default one when no file exists; a predictor exactly when a saved model loads |
| `KtService.KnowledgeTracer.AddInteraction` | dkt/api.py:68-89 | every listed skill is registered. One record per listed skill is appended to the log, created if absent, in order, each with its skill's id. Earlier records are untouched, and the timestamp defaults to now |
| `KtService.KnowledgeTracer.GetSkillMastery` | dkt/api.py:135-138 | without a predictor, 0.5 for every known skill; with one, the user's history is what it is asked about |
| `KtService.KnowledgeTracer.RecommendProblems` | dkt/api.py:140-143 | without a predictor, the first min(5, n) problems unchanged; with one, the predictor gets the user's history, the problems and the target |
| `KtService.KnowledgeTracer.TrainModel` | dkt/api.py:91-107 | no file gives no training. Fewer than 10 records are refused with their count, and so are fewer than 2 user sequences. Otherwise training proceeds on exactly the prepared sequences |
| `KtService.KnowledgeTracer.AddInteractionRoute` | dkt/api.py:150-163 | 400 exactly when user_id, problem_id, skills or correct is missing, storing nothing; otherwise 200 after `add_interaction` |
| `KtService.KnowledgeTracer.RecommendRoute` | dkt/api.py:174-184 | 400 exactly when user_id or problems is missing; otherwise 200 with the recommendation, the target defaulting to 0.6 |
| `KtService.KnowledgeTracer.CurrentStatus` | dkt/api.py:196-198 | the reported fields are the registry size, its keys in order and the predictor flag; beyond that, for a dense registry `num_skills` is the highest id in use, and with distinct keys each listed skill at position k has id k + 1 |
| `KtService.DenseRegistry` | dkt/api.py:80-84 | in a dense registry the highest id is its size, and with distinct keys entry k's key looks up id k + 1 |
| `KtService.DenseMaxId` | dkt/api.py:80 | in a dense registry `max(values)` is the number of entries |
| `KtService.LookupFirst` | dkt/api.py:84 | with distinct keys, looking up an entry's key gives that entry's id |
| `KtService.ProceedsNeedsTwoUsers` | dkt/api.py:104-107 | passing the sequence guard means the log holds records of two different users |
| `KtService.HighestSkillNeverTrained` | dkt/model.py:71 | were the dataset given `num_skills` = the registry size, as the model is at dkt/api.py:113, then with dense ids 1..N the highest id N would always stay padding while every lower id is used |
| `ProblemContext.NextIndex` | src/contexts/ProblemContext.tsx:60 | one step forward, never past the number of questions |
| `ProblemContext.RepeatedNext` | src/contexts/ProblemContext.tsx:60 | k steps from a valid index reach min(i + k, n) |
| `ProblemContext.ProblemStore.constructor` | src/contexts/ProblemContext.tsx:37-40 | no problem, not loading, no error, index 0 |
| `ProblemContext.ProblemStore.BeginFetch` | src/contexts/ProblemContext.tsx:43-44 | loading starts and the previous error is cleared |
| `ProblemContext.ProblemStore.FinishFetch` | src/contexts/ProblemContext.tsx:45-55 | a fetched problem replaces the current one and resets the index to 0. A failure records its message ("Failed to fetch problem" for a response that is not ok) and keeps the problem and index. Loading ends either way |
| `ProblemContext.ProblemStore.FetchProblem` | src/contexts/ProblemContext.tsx:42-56 | the whole fetch: success stores the problem with index 0 and no error; failure keeps the problem and index and sets the error; loading is false after |
| `ProblemContext.ProblemStore.NextMcq` | src/contexts/ProblemContext.tsx:58-62 | without a problem nothing changes; otherwise the clamped step, so the index never passes the question list |
| `McqSection.FinalScore` | src/components/MCQSection.tsx:50-52 | the rounded percentage of correct answers, in 0..100: 100 for no questions or all correct, 0 for none correct |
| `McqSection.AtMostOneCorrectFails` | src/components/MCQSection.tsx:50-52 | with two or more questions and at most one correct, the score is below 80 |
| `McqSection.McqSection.CurrentQuestion` | src/components/MCQSection.tsx:13-20 | the question at the store's index, absent past the end or with no questions |
| `McqSection.McqSection.constructor` | src/components/MCQSection.tsx:15-17 | a mounted quiz starts unanswered with count 0, at the store's current index |
| `McqSection.McqSection.HandleAnswerSelect` | src/components/MCQSection.tsx:34-42 | a second answer is ignored; a first one is recorded and adds 1 exactly when it is the correct answer; each question counts at most once |
| `McqSection.McqSection.HandleNext` | src/components/MCQSection.tsx:44-55 | before the last question it advances and clears the selection, keeping the count; at the last it completes with the final score (at most 100) |
| `McqSection.RetryScenario` | src/components/MCQSection.tsx:44-53 | a quiz of two or more questions mounted again on its last question completes at once below 80 |
| `Session.InteractionPayload` | src/components/ProblemSolver.tsx:35-40 | the payload has the base keys plus the data's keys; a data key overrides; otherwise the user, problem id and tags apply |
| `Session.McqEventMeans` | src/components/ProblemSolver.tsx:49 | the quiz event has phase mcq, the score, the tags as skills, and `correct` exactly when the score is at least 80 |
| `Session.ProblemSolver.constructor` | src/components/ProblemSolver.tsx:19-21 | reading, timer off, no feedback, nothing sent |
| `Session.ProblemSolver.ProblemIdChanged` | src/components/ProblemSolver.tsx:23-31 | a non-empty route id resets to reading, no feedback, timer off; otherwise nothing changes |
| `Session.ProblemSolver.RecordInteraction` | src/components/ProblemSolver.tsx:33-46 | sends one payload when a user, a problem id and a problem are present, and nothing otherwise |
| `Session.ProblemSolver.Available` | src/components/ProblemSolver.tsx:80-119 | defined here (which control is on screen); `Dispatch` states what each control does and that a control not on screen does nothing |
| `Session.ProblemSolver.BeginQuestions` | src/components/ProblemSolver.tsx:94 | "Continue to Questions", on screen only in reading, enters mcq; the timer, already off in reading, stays off and is not touched |
| `Session.ProblemSolver.HandleMcqComplete` | src/components/ProblemSolver.tsx:48-52 | records the quiz event, then enters coding with the timer on |
| `Session.ProblemSolver.HandleCodingComplete` | src/components/ProblemSolver.tsx:54-57 | enters completed with the timer off |
| `Session.ProblemSolver.HandleSolutionFeedback` | src/components/ProblemSolver.tsx:59-62 | stores the answer and records phase completed with `correct = worked` |
| `Session.ProblemSolver.HandleTryAgain` | src/components/ProblemSolver.tsx:64-68 | back to reading, feedback cleared, timer off |
| `Session.ProblemSolver.Dispatch` | src/components/ProblemSolver.tsx:70-119 | a control that is not on screen does nothing. The timer runs exactly in coding. Mcq is entered only from reading, coding only from mcq, completed only from coding, and reading again only after a "No". Feedback once given is not overwritten, at most one event is sent, and each available control has its handler's effect |
| `Timer.NatToString` | src/components/Timer.tsx:34 | `toString` of a natural number: at least one digit, all digits, one digit exactly below 10, two from 10 to 99 |
| `Timer.ParseNatToString` | src/components/Timer.tsx:34 | reading back the printed number gives the number |
| `Timer.PadStart2` | src/components/Timer.tsx:34 | `padStart(2, '0')`: length at least 2, the string at the end, zeros in front |
| `Timer.FormatTime` | src/components/Timer.tsx:31-35 | defined here (`formatTime`); its meaning is in `FormatTimeMeans`, `FormatTimeWidth` and `SeventyFiveSeconds` |
| `Timer.FormatTimeMeans` | src/components/Timer.tsx:31-35 | both fields are digits, seconds exactly two digits below 60, minutes at least two, and minutes·60 + seconds is the time |
| `Timer.FormatTimeWidth` | src/components/Timer.tsx:31-35 | below 6000 seconds the display is five characters with the colon in the middle |
| `Timer.SeventyFiveSeconds` | src/components/Timer.tsx:31-35 | 75 seconds show as 01:15 |
| `Timer.TimerState.constructor` | src/components/Timer.tsx:9 | the count starts at 0 |
| `Timer.TimerState.SetRunning` | src/components/Timer.tsx:11-28 | switching on restarts the count from 0; otherwise the count is kept |
| `Timer.TimerState.Tick` | src/components/Timer.tsx:14-16 | a tick adds exactly 1 while running and nothing while stopped |
| `Timer.TimerState.Elapse` | src/components/Timer.tsx:11-21 | k ticks add k while running and nothing while stopped |
| `Dashboard.Round` | src/components/Dashboard.tsx:68 | `Math.round`: within half a unit, halves rounded up |
| `Dashboard.Percent` | src/components/Dashboard.tsx:68 | `Math.round(score * 100)`: within half a unit of the percentage, in 0..100 for a score in [0, 1] |
| `Dashboard.InBand` | src/components/Dashboard.tsx:65 | keeps exactly the entries whose score is within [min, max], inclusive |
| `Dashboard.Shortlist` | src/components/Dashboard.tsx:64-67 | defined here (filter, sort, first three); its meaning is in `ShortlistMembers`, `ShortlistOrdered`, `ShortlistTop` and `ShortlistMeans` |
| `Dashboard.SkillAreas` | src/components/Dashboard.tsx:62-69 | defined here (`getSkillAreas`); its meaning is in `SkillAreasMeans` and `AreaComesFrom` |
| `Dashboard.ShortlistMembers` | src/components/Dashboard.tsx:64-67 | the shortlist has min(3, band size) entries, all from the input and within the band |
| `Dashboard.ShortlistOrdered` | src/components/Dashboard.tsx:66 | the shortlist is ordered by score, descending when asked and ascending otherwise |
| `Dashboard.ShortlistTop` | src/components/Dashboard.tsx:66-67 | an in-band entry left out ranks after every kept one |
| `Dashboard.ShortlistMeans` | src/components/Dashboard.tsx:64-67 | the shortlist is exactly the top three of the band in the chosen order: size, membership, no entry more often than the band holds it, order, and no better entry left out |
| `Dashboard.SkillAreasMeans` | src/components/Dashboard.tsx:62-69 | at most three areas, none without analytics, each the topic and rounded percentage of a shortlisted in-band entry, in order, within 0..100 for a band within [0, 1] |
| `Dashboard.AreaComesFrom` | src/components/Dashboard.tsx:62-69 | every area shown comes from an in-band entry of the input with the same topic |
| `Dashboard.StrongAndWeakDisjoint` | src/components/Dashboard.tsx:71-72 | no topic is both a strong area ([0.8, 1.0]) and a weak area ([0.0, 0.6]) |

## Left out

- I/O is not modelled: HTTP (Express, Flask, axios, fetch, CORS), MongoDB and the JSON files of the Python service. Stores are sequence fields; oracle replies, probe outcomes, fetch outcomes and the current time are parameters.
- The 60-second probe interval, `setInterval` and the one-second tick are explicit method calls (`CheckAvailability`, `Tick`, `Elapse`); async scheduling and `Promise.all` are left out.
- bcrypt hashing and comparison, and jwt signing and verification, are function parameters; a token is the claims it carries; token expiry is not modelled.
- `Server.UserStore.LogInteraction`: the request body's `problemId` and `correct` are typed (`Option<string>`, `Option<bool>`). The source tests only `=== undefined` (server/index.js:91), so a JSON `null` or a non-boolean `correct` counts as present there and reaches the update; the model cannot express such a value.
- `KtService.KnowledgeTracer.AddInteractionRoute` and `RecommendRoute`: an absent key is `None` in the model. The source tests only key presence (`field in data`, dkt/api.py:154 and :177), so a key present with a JSON `null` passes the 400 check and is stored or used; the model cannot express such a value.
- The 500 responses of the server and the service (a thrown database or file error) are not modelled.
- The User schema (server/models/User.js) is not part of this model. A new user is taken to start with no interactions, `solvedProblems = 0` and `accuracy = 0`, and `_id` is the user's position in the store.
- MongoDB ObjectIds and the `toString()` calls on them are plain strings.
- Timestamps are integers. A record whose timestamp the gateway sent carries a UTC `toISOString()` string (server/services/dktService.js:40); such strings order as text like the instants they name, and the model uses that order. The service's own default, `datetime.now().isoformat()` (dkt/api.py:70), is local time without an offset. `sorted(key=timestamp)` (dkt/api.py:132) compares those strings as text, and mixing them with UTC strings need not follow the instants; the model does not capture this.
- `DKTPredictor`, `DKTModel`, `DKTTrainer` and the training loop (dkt/api.py:109-125) are left out: the predictor is imported but not defined in dkt/model.py, and `DKTDataset` is called there with a `max_seq_length` keyword that its constructor does not take, and without `num_skills`. `TrainModel` models the guards; passing them yields the prepared sequences.
- What the predictor returns for mastery and recommendations is not modelled; only its inputs (the user's history, the problems, the target) are.
- `KtService.KnowledgeTracer.constructor` requires a stored skill mapping with distinct keys and distinct ids. A JSON object already has distinct keys, and the service writes only mappings whose ids it assigned itself, one new id per new skill; a hand-edited file with a repeated id is not modelled.
- `KtService.KnowledgeTracer.CurrentStatus` reports `model_loaded` from `predictorLoaded`, where dkt/api.py:198 reads `model is not None`. Loading sets and resets the model and the predictor together (dkt/api.py:47-58), and training, whose loop is left out, ends by setting both (dkt/api.py:113-123), so one flag stands for both.
- `save_model` and `load_model`'s contents are not modelled; whether a model loads is a constructor parameter, and a checkpoint's own skill mapping is not read.
- The `/dkt/mastery` and `/dkt/train` routes are thin wrappers of `get_skill_mastery` and `train_model` and are not modelled separately.
- Floating point is not modelled: percentages are exact integer rounding of exact ratios, and dashboard scores are reals.
- MongoDB's `sort({ timestamp: -1 })` is taken to keep equal timestamps in insertion order; MongoDB does not promise this.
- `Object.entries` order of the mastery object is the order of the input sequence, and its topics are assumed distinct as keys of an object are.
- The client posts interactions to `/api/interactions`, a route that server/index.js does not define; the posted payloads are modelled as the `sent` sequence and their delivery is left out.
- `Gateway.OracleGateway.RecordInteraction`: a failed push (`pushOk == false`) is only logged in the source, so the parameter changes nothing in the model.
- The quiz's effects on the session are modelled through `HandleNext`'s result; the component tree that passes `onComplete` to the page is not modelled.
- A problem without MCQs shows only the loading placeholder, so the session cannot leave the mcq phase; the model's `Available` reflects the phase only, and `McqSection.HandleAnswerSelect` and `HandleNext` require a current question.
- The schema does not check `correctAnswer` against the options; the model does not either.
- OptimalSolution.tsx is rendering only: its Yes/No and "Try Again" buttons (src/components/OptimalSolution.tsx:24-41) appear in `Session.ProblemSolver.Available` with the page's handlers.
- CodeEditor.tsx's controls are not session events. ProblemSolver.tsx:109 renders the editor with `phase` only and passes neither `onStartCoding` nor `onComplete`. So "Start Coding Session", "Submit Correct", "Submit Incorrect", and "Run Code" outside coding call a missing callback and change no session state. "Run Code" in coding only shows an alert. The editor's text and language are local state and are not modelled. "Submit & Compare" is the page's own header button (src/components/ProblemSolver.tsx:80-84).
- JSX rendering, LoginPage.tsx, Navigation.tsx, App.tsx, AuthContext.tsx, start_dkt_services.py and server/seed.js are not part of this model.
- `Session.ProblemSolver.Dispatch` does not model the fetch triggered by a route change; `ProblemIdChanged` models only its reset of the session.
