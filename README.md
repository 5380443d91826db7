# health-beacon-guide, modelled in Dafny

health-beacon-guide is a symptom checker with a doctor finder.

- **The FastAPI backend** does three things:
  - It analyses a list of symptoms. When the Gemini model is not used, it falls back to a rule-based analysis: keyword tables, a risk rule, recommendations, warning flags and specialist routing.
  - It finds doctors near a point through OpenStreetMap.
  - It keeps patient sessions in memory.
- **The React front end** does the rest:
  - It collects the symptoms.
  - It calls the backend through an API client. The client normalises what it sends and classifies every failure.
  - It hands the analysis to a results page, and from there to the doctor search.

This project models the deterministic core of both sides. The parts that state or update data become these Dafny pieces:

- the keyword tables, the risk rule, the recommendations, the warning flags and the truncated result of the analysis;
- request validation, the tag extractors, the element filter and the sort of the nearby search;
- the session store, a class over a `map`;
- the counters and helpers of the document models;
- the API client's payloads, response unwrapping and error classification;
- the three page controllers and the symptom form. Each is a class whose fields are the React state, and its methods are the event handlers.

Loops in the source become methods with loop invariants, proved against specification functions. The following become parameters:

- what the network, the Gemini, UMLS, MeSH and OpenFDA services, the geocoder, Overpass, the browser's geolocation, the clock and the UUID generator return;
- the haversine distance.

One module per source file:

| module | file |
|---|---|
| `Outcomes` | shared `Option`, `Result` and HTTP error |
| `Text` | `lower()`, `in`, `strip()`/`trim()`, `split`, `join`, decimal text |
| `Js` | JavaScript values as the front end handles them: truthiness, `\|\|`, `??`, property access, `map` with a throwing callback, `String()`, `parseInt` |
| `GeminiAI` | backend-fastapi/app/services/gemini_ai.py |
| `Nearby` | backend-fastapi/app/routers/nearby.py |
| `Patients` | backend-fastapi/app/routers/patients.py |
| `DoctorModel` | backend-fastapi/app/models/doctor.py |
| `SymptomAnalysisModel` | backend-fastapi/app/models/symptom_analysis.py |
| `PatientModel` | backend-fastapi/app/models/patient.py |
| `SymptomsRouter` | backend-fastapi/app/routers/symptoms.py |
| `CoreServices` | backend-fastapi/core/services.py |
| `MainCors` | backend-fastapi/app/main.py |
| `ApiService` | frontend/src/services/apiService.js |
| `SymptomCheckerPage` | frontend/src/pages/SymptomChecker.tsx |
| `SymptomCheckerComponent` | frontend/src/components/SymptomChecker.jsx |
| `FindDoctorsPage` | frontend/src/pages/FindDoctors.tsx |
| `ResultsPage` | frontend/src/pages/Results.tsx |

The client and the server do not agree on the body of a nearby-doctor search.

- `findNearbyDoctors` in the API client sends `{coordinates, radius}`.
- The FindDoctors page and the backend use top-level `latitude`, `longitude` and `radius_km`.

Each side is modelled as written.

## Model

| member | source | states |
|---|---|---|
| Js.MapAll | frontend/src/pages/FindDoctors.tsx:96-102 | `items.map(f)` with a callback that may throw: succeeds exactly when the callback succeeds on every element, then one result per element in order; a failure is the error of the first element whose callback throws, every earlier one having succeeded |
| Js.JoinTextIsJoin | frontend/src/pages/Results.tsx:110-111 | `items.join(sep)` is the elements' texts joined with the separator, with null and undefined elements as empty text |
| Js.ParseIntDigits | frontend/src/components/SymptomChecker.jsx:88 | `parseInt` reads a nonempty run of decimal digits whole, in base 10 |
| Js.ParseIntDecimal | frontend/src/components/SymptomChecker.jsx:88 | `parseInt` reads back the decimal digits of every natural number |
| Js.ParseIntNoDigits | frontend/src/components/SymptomChecker.jsx:88 | a text that starts with no white space, sign or digit is NaN |
| Text.Trim | backend-fastapi/app/main.py:19 | `strip()` / `trim()`: the result has no white space at either end, is no longer than the text, and is empty exactly when the text is all white space; it is a slice `s[i..j]` of the text with nothing but white space before `i` and from `j` on |
| Text.TrimStartDropsSpace | backend-fastapi/app/main.py:19 | what the left strip cuts off is white space |
| Text.TrimEndDropsSpace | backend-fastapi/app/main.py:19 | what the right strip cuts off is white space |
| Text.TrimChars | backend-fastapi/app/main.py:19 | stripping adds no character the text did not have |
| Text.SplitAnyNoSeparator | frontend/src/pages/SymptomChecker.tsx:50-51 | no piece of a split holds a separator |
| Text.SplitJoin | backend-fastapi/app/main.py:19 | splitting a join of separator-free parts gives the parts back |
| Text.NonBlankTrimmedClean | backend-fastapi/app/main.py:19 | every kept piece is non-empty and stripped |
| Text.NonBlankTrimmedEmpty | frontend/src/components/SymptomChecker.jsx:68-69 | nothing is kept exactly when every piece is blank |
| Text.NonBlankTrimmedKeeps | frontend/src/components/SymptomChecker.jsx:68-81 | every non-blank piece is kept, trimmed |
| Text.NonBlankTrimmedFixed | backend-fastapi/app/main.py:19 | pieces already non-empty and stripped pass through unchanged |
| Js.ParseInt | frontend/src/components/SymptomChecker.jsx:88 | `parseInt` is always a number or NaN |
| Text.Lower | backend-fastapi/app/services/gemini_ai.py:185 | `lower()` keeps the length and lowers each character |
| Text.LowerIdempotent | backend-fastapi/app/services/gemini_ai.py:185 | lowering an already lowered name changes nothing (also lines 248, 413) |
| Text.SplitAnyCovers | frontend/src/pages/SymptomChecker.tsx:50-51 | every character that is not a separator ends up in some piece |
| Text.JoinSplit | backend-fastapi/app/main.py:19 | joining the pieces of a split with the separator gives the text back |
| Text.ContainsWitness | backend-fastapi/app/services/gemini_ai.py:188-192 | a text that contains a key contains it at some position |
| Text.JoinNonEmpty | backend-fastapi/app/models/doctor.py:165 | `", ".join(part for part in parts if part)`: the non-empty parts in order joined with the separator; empty exactly when every part is, and containing every part |
| Text.NonEmptyKeeps | backend-fastapi/app/routers/nearby.py:134 | the filter keeps no empty part and every non-empty one, and keeps nothing exactly when every part is empty |
| Text.NonEmptyAppend | backend-fastapi/app/routers/nearby.py:134 | the filter keeps order: filtering a concatenation is filtering each part in turn |
| ApiService.Classify | frontend/src/services/apiService.js:81-106 | never a success, whatever the error |
| ApiService.ClassifyCases | frontend/src/services/apiService.js:81-106 | status 400 and then 500 give the operation's fixed message with the response data; then a refused connection gives the connection message with "Connection refused"; otherwise the error's own message, or the unexpected-error text when it is empty, with the response data when it is truthy and the error itself when it is not |
| ApiService.NormalizeSymptom | frontend/src/services/apiService.js:52-57 | throws exactly for `undefined` and `null` |
| ApiService.NormalizedSymptomShape | frontend/src/services/apiService.js:52-57 | a normalised symptom has exactly the keys name, severity, duration and description; severity is always truthy; the name is truthy exactly when `symptom.name \|\| symptom` is; a plain-text symptom becomes {name: the text, severity "moderate", duration null, description null} |
| ApiService.NormalizeSymptomsEach | frontend/src/services/apiService.js:52 | the map succeeds exactly when every symptom normalises; then one normalised symptom per input symptom, same length, same order |
| ApiService.NormalizePatient | frontend/src/services/apiService.js:49-64 | fails only for a `null` block (an absent one defaults to {}) |
| ApiService.NormalizedPatientShape | frontend/src/services/apiService.js:49-64 | exactly the five patient keys; each key but medical_history is null exactly when the given one is falsy (so age 0 is null); medical_history is always truthy |
| ApiService.AnalyzePayload | frontend/src/services/apiService.js:51-65 | the payload exists exactly when the symptoms and the patient block both normalise |
| ApiService.PayloadShape | frontend/src/services/apiService.js:51-65 | the payload is then exactly {symptoms, patientInfo}, built from the normalised symptoms and patient block |
| ApiService.UnwrapAnalysis | frontend/src/services/apiService.js:72 | the nested `data.analysis` when it is truthy, the whole body otherwise |
| ApiService.AnalyzeSymptomsOutcome | frontend/src/services/apiService.js:49-108 | success exactly when the payload builds and the server answers; the data is then the unwrapped analysis; a thrown error is classified with the symptom messages (`AnalyzeSymptoms` is `analyzeSymptoms`) |
| ApiService.NormalizeSymptomIdempotent | frontend/src/services/apiService.js:52-57 | normalising a normalised symptom with a truthy name changes nothing |
| ApiService.NormalizePatientIdempotent | frontend/src/services/apiService.js:58-64 | normalising a normalised patient block changes nothing |
| ApiService.TwoPlainSymptoms | frontend/src/services/apiService.js:49-65 | two plain-text symptoms and {} give two default symptoms and an all-null patient block with an empty history |
| ApiService.NearbyPayload | frontend/src/services/apiService.js:118-127 | always coordinates and radius (10 when not given); a specialty key exactly when the specialty is truthy |
| ApiService.FindNearbyDoctors | frontend/src/services/apiService.js:118-166 | success exactly when the server answers, with the raw body; otherwise the same four-way classification with the doctor-search messages |
| ApiService.GetCurrentLocation | frontend/src/services/apiService.js:172-209 | resolves exactly when a position is given, with its coordinates; no geolocation and each error code reject with their own messages, an unknown code with the generic one |
| ApiService.LocationMessagesDistinct | frontend/src/services/apiService.js:186-200 | two different known error codes reject with different messages |
| ApiService.HealthCheck | frontend/src/services/apiService.js:215-229 | success exactly when the server answers, with its body; otherwise "Backend server is not responding" with the error's message |
| GeminiAI.FirstMatchFrom | backend-fastapi/app/services/gemini_ai.py:186-194 | the first table row from `from` on whose key occurs in the text: it occurs, no earlier row's key does, and None means no key occurs |
| GeminiAI.FirstMatch | backend-fastapi/app/services/gemini_ai.py:186-194 | the first row, in table order, whose key occurs in the text, or None exactly when no key occurs |
| GeminiAI.CollectFirstMatches | backend-fastapi/app/services/gemini_ai.py:184-194 | the nested loop with its `break` yields, symptom by symptom, the value of the first matching key of the lower-cased symptom (also lines 510-515) |
| GeminiAI.MatchAllAtMostOnePerSymptom | backend-fastapi/app/services/gemini_ai.py:184-194 | the `break` bounds the result: at most one entry per symptom (`MatchAll` is that loop over the symptoms, `MatchOne` its inner scan) |
| GeminiAI.MatchAllFromTable | backend-fastapi/app/services/gemini_ai.py:184-194 | every entry of the result is the value of some table row |
| GeminiAI.NoKeyNoEntry | backend-fastapi/app/services/gemini_ai.py:186-187 | a symptom that mentions no key contributes nothing |
| GeminiAI.FirstKeyWins | backend-fastapi/app/services/gemini_ai.py:186-194 | a symptom contributes exactly the value of its first matching row, however many keys it mentions |
| GeminiAI.AnalyzeSymptomsBasic | backend-fastapi/app/services/gemini_ai.py:168-196 | the table scan of `analyze_symptoms_basic`: at most one condition per symptom, every one from the table with source "Basic Analysis" |
| GeminiAI.GetBasicMedications | backend-fastapi/app/services/gemini_ai.py:474-517 | the same scan over `basic_meds`: at most one medication per symptom, every one with source "Basic recommendation" |
| GeminiAI.BasicTableSources | backend-fastapi/app/services/gemini_ai.py:188-192 | every row of `symptom_mapping` has source "Basic Analysis" and every row of `basic_meds` source "Basic recommendation" (also lines 479-508) |
| GeminiAI.FeverAndHeadache | backend-fastapi/app/services/gemini_ai.py:173-175 | dictionary order decides: "fever and headache" yields the fever condition but the headache medication (also lines 479-493) |
| GeminiAI.SymptomNames | backend-fastapi/app/services/gemini_ai.py:248 | one lower-cased name per symptom, "" for a missing name |
| GeminiAI.Severities | backend-fastapi/app/services/gemini_ai.py:249 | one severity per symptom; "moderate" only when the key is missing, while an explicit `None` stays `None` |
| GeminiAI.CountOf | backend-fastapi/app/services/gemini_ai.py:316-317 | the count is at most the length and positive exactly when the value occurs |
| GeminiAI.RiskLevel | backend-fastapi/app/services/gemini_ai.py:316-324 | "high" exactly when some severity is "severe" or there are more than four symptoms; "medium" exactly when not high and more than one "moderate" or more than two symptoms; "low" otherwise |
| GeminiAI.RiskMonotone | backend-fastapi/app/services/gemini_ai.py:316-324 | one more symptom never lowers the risk level |
| GeminiAI.CountAppend | backend-fastapi/app/services/gemini_ai.py:316-317 | counting over an extended list adds one exactly for a matching new element |
| GeminiAI.BaseRecommendations | backend-fastapi/app/services/gemini_ai.py:202-219 | exactly the three recommendations of the severity: the high, the medium or the low list |
| GeminiAI.GenerateRecommendations | backend-fastapi/app/services/gemini_ai.py:198-233 | exactly the severity's three recommendations followed by the fever, cough and headache tips whose word some symptom mentions, in that order; three to six items, each tip present exactly when its word is mentioned |
| GeminiAI.TipsPicked | backend-fastapi/app/services/gemini_ai.py:223-231 | the picked tips are at most three and pairwise distinct, each of the fever, cough and headache tips present exactly when its test held |
| GeminiAI.FlagFor | backend-fastapi/app/services/gemini_ai.py:332-337 | chest pain wins, then breathing difficulty; otherwise a severe headache or a severe symptom gives the monitoring flag; no flag exactly when the name mentions none of the triggers and no severity is "severe" |
| GeminiAI.RaisedFlags | backend-fastapi/app/services/gemini_ai.py:331-337 | at most one flag per symptom |
| GeminiAI.WarningFlags | backend-fastapi/app/services/gemini_ai.py:330-344 | the loop yields the raised flags in symptom order, or the three defaults when none was raised, so the list is never empty |
| GeminiAI.SevereFlagsEverySymptom | backend-fastapi/app/services/gemini_ai.py:336 | once any severity is "severe", every symptom raises exactly one flag |
| GeminiAI.ChestPainFlagged | backend-fastapi/app/services/gemini_ai.py:332-333 | a symptom mentioning chest pain always puts the chest-pain flag in the list |
| GeminiAI.Specialist | backend-fastapi/app/services/gemini_ai.py:346-349 | a specialist is recommended exactly for high risk or more than three symptoms; Emergency Medicine exactly for high risk, Family Medicine otherwise; urgency by risk level |
| GeminiAI.ManySymptomsEmergency | backend-fastapi/app/services/gemini_ai.py:319-349 | more than four symptoms always give an emergency referral to Emergency Medicine |
| GeminiAI.Take | backend-fastapi/app/services/gemini_ai.py:354-357 | the slice `[:n]`: at most n items, a prefix of the list, the whole list when it is short enough |
| GeminiAI.AsRecommendations | backend-fastapi/app/services/gemini_ai.py:355 | one recommendation per text, in order, of type "medical-attention" with the risk level as priority |
| GeminiAI.AnalyzeSymptoms | backend-fastapi/app/services/gemini_ai.py:301-387 | the analysis `AnalysisOf` names: without Gemini, the last-resort answer when the external block raises; otherwise the risk rule, confidence 75, at most five conditions (the basic ones only when UMLS and MeSH found nothing), at most six OpenFDA medications, the recommendations of the symptom names and the risk with the risk as priority, the warning flags of the names and severities, the specialist routing, and the "External Medical APIs" model and "UMLS, MeSH, OpenFDA APIs" source with the disclaimer |
| GeminiAI.ErrorAnalysis | backend-fastapi/app/services/gemini_ai.py:370-387 | the last-resort answer, field by field: risk "unknown", confidence 0, no conditions or medications, the one high-priority recommendation, the one flag "Unable to analyze symptoms - seek medical attention", an urgent "Family Medicine" specialist, the model "Error - External APIs failed", the source "Fallback", the error disclaimer, and the exception's message after "Failed to fetch from external APIs: " |
| GeminiAI.MedicationSymptomNames | backend-fastapi/app/services/gemini_ai.py:392-401 | [] for a missing, non-list or empty list; a list of strings is used as it is; otherwise each dict's name ("" when missing), one per element |
| GeminiAI.GeneralAdviceBlocks | backend-fastapi/app/services/gemini_ai.py:411-439 | three, six or nine items; the defaults exactly when no name mentions fever, headache or cough; the blocks in fever, headache, cough order |
| GeminiAI.MedicationWarningsShape | backend-fastapi/app/services/gemini_ai.py:441-452 | the five fixed warnings, plus the food warning exactly when a name mentions stomach or nausea |
| GeminiAI.GetMedications | backend-fastapi/app/services/gemini_ai.py:389-472 | the advice `AdviceOf` names: the error answer when the block raises; otherwise at most six medications (the basic ones only when OpenFDA found nothing), the general advice, the warnings, the source "External APIs (OpenFDA)", the notes and the educational disclaimer (also lines 454-460) |
| GeminiAI.ErrorAdvice | backend-fastapi/app/services/gemini_ai.py:463-472 | the answer when the medication block raises: no medication, the source "Error - External APIs failed", no notes, the error disclaimer, and the exception's message after "Failed to fetch medication data: " |
| Nearby.ValidateRequestAsWritten | backend-fastapi/app/routers/nearby.py:23-35 | both validations go through `Validate`. As written: accepted exactly when each sent coordinate is in range, the longitude is left out or a latitude is sent exactly when a longitude is, and radius and limit are valid; an accepted request is the address, both coordinates, the radius (5 when left out) and the limit (25 when left out), within every declared bound; a rejection names at least one error |
| Nearby.ValidateRequest | backend-fastapi/app/routers/nearby.py:23-35 | the pairing rule applied to every request: accepted exactly when each sent coordinate is in range, a latitude is sent exactly when a longitude is, and radius and limit are valid; an accepted request is the address, both coordinates, the radius and the limit, with both coordinates or neither |
| Nearby.ValidationsAgreeUnlessLongitudeAbsent | backend-fastapi/app/routers/nearby.py:30-35 | the two validations differ only on a request that sends a latitude and leaves the longitude out |
| Nearby.LatitudeOnlyAccepted | backend-fastapi/app/routers/nearby.py:30-35 | as written, a latitude-only request is accepted, and without an address the search then answers 400; the corrected validation rejects it (also lines 140-145) |
| Nearby.SelectCenter | backend-fastapi/app/routers/nearby.py:139-145 | both coordinates win; otherwise a non-empty address is geocoded; otherwise 400 with the fixed message |
| Nearby.CoordinatesOverrideAddress | backend-fastapi/app/routers/nearby.py:140-141 | with both coordinates, neither the address nor the geocoder's answer changes the centre |
| Nearby.PyOr | backend-fastapi/app/routers/nearby.py:113-120 | Python's `or`: the first operand when truthy, otherwise the second, and truthy exactly when either is |
| Nearby.ExtractName | backend-fastapi/app/routers/nearby.py:112-113 | never empty: the first non-empty of name, operator and brand, else "Unknown" |
| Nearby.ExtractSpecialty | backend-fastapi/app/routers/nearby.py:115-116 | `healthcare:speciality` when non-empty, else exactly the `specialty` tag; truthy exactly when either tag is |
| Nearby.ExtractContact | backend-fastapi/app/routers/nearby.py:118-121 | phone when non-empty, else exactly contact:phone; website when non-empty, else exactly contact:website; each truthy exactly when one of its two tags is |
| Nearby.AddressParts | backend-fastapi/app/routers/nearby.py:124-133 | the eight parts in the source's order: house number, street, neighbourhood, suburb, the first non-empty of city, town and village, state, postcode, country, a missing tag giving an empty part |
| Nearby.ExtractAddress | backend-fastapi/app/routers/nearby.py:123-135 | None exactly when every part is empty; otherwise the non-empty parts in order joined with ", ", which contains every part |
| Nearby.StreetThenCity | backend-fastapi/app/routers/nearby.py:123-135 | tags with only a street and a city give "street, city": the order and the separator of the join |
| Nearby.KeptAfterBlanks | backend-fastapi/app/routers/nearby.py:134 | empty parts before a non-empty one are dropped and the part is kept |
| Nearby.ThreeBlanksDropped | backend-fastapi/app/routers/nearby.py:134 | three empty parts leave nothing |
| Nearby.StreetAndCityKept | backend-fastapi/app/routers/nearby.py:124-134 | of the eight parts, only a non-empty street and city are kept, in that order |
| Nearby.CityFallsBack | backend-fastapi/app/routers/nearby.py:129 | with no city and no town, the village appears in the address |
| Nearby.Position | backend-fastapi/app/routers/nearby.py:183-195 | an element without tags is skipped; a node is kept exactly when it has both coordinates, at those coordinates; any other element is kept exactly when its non-empty centre has both, at the centre |
| Nearby.CollectDoctors | backend-fastapi/app/routers/nearby.py:180-212 | the element loop with its `continue`s yields one doctor per element that has a position, in element order |
| Nearby.ToDoctor | backend-fastapi/app/routers/nearby.py:197-212 | a doctor from OpenStreetMap with the extracted name, specialty, contact and address, at the element's position and with the given distance |
| Nearby.DoctorsFromShape | backend-fastapi/app/routers/nearby.py:182-212 | at most one doctor per element; every doctor has source "osm", a non-empty name and a distance |
| Nearby.PositionedElementKept | backend-fastapi/app/routers/nearby.py:182-212 | every element that has a position gives its doctor |
| Nearby.Insert | backend-fastapi/app/routers/nearby.py:215 | inserting adds exactly the one doctor |
| Nearby.InsertSorted | backend-fastapi/app/routers/nearby.py:215 | inserting into a list sorted by distance keeps it sorted |
| Nearby.SortByDistance | backend-fastapi/app/routers/nearby.py:215 | the result is sorted by `distance_km or 0` and is a permutation of the input |
| Nearby.NearbySearch | backend-fastapi/app/routers/nearby.py:137-221 | the centre's error, or 502 "Overpass service error" when every mirror fails; otherwise the centre, the request's radius, and a total equal to the number of doctors, which are a sorted permutation of those built from the elements |
| Patients.ValidatePayload | backend-fastapi/app/routers/patients.py:11-25 | a payload is accepted exactly when its age, if given, lies in 1..150 and its gender, if given, is one of the four allowed values; each rejection names exactly the fields at fault |
| Patients.Profile | backend-fastapi/app/routers/patients.py:32 | `model_dump(exclude_none=True)`: a key is present exactly when its field is not `None`, holding that field's value, and no other keys |
| Patients.EmptyPayloadChangesNothing | backend-fastapi/app/routers/patients.py:46 | merging an all-`None` payload leaves a profile as it was |
| Patients.SessionId | backend-fastapi/app/routers/patients.py:29 | a session id is "sess_" followed by ten hexadecimal digits |
| Patients.SessionStore.constructor | backend-fastapi/app/routers/patients.py:9 | the store starts empty |
| Patients.SessionStore.CreateSession | backend-fastapi/app/routers/patients.py:27-39 | the new session has the payload's profile, both timestamps, zero totals and is active, and is filed under its id with every other entry kept |
| Patients.SessionStore.UpdateSession | backend-fastapi/app/routers/patients.py:41-48 | an unknown id gives 404 and changes nothing; otherwise the profile is merged with the payload, the activity time refreshed, and no other session changes |
| Patients.SessionStore.GetSession | backend-fastapi/app/routers/patients.py:50-54 | the stored session exactly when the id is known, else 404 |
| Patients.SessionStore.SessionAnalytics | backend-fastapi/app/routers/patients.py:56-69 | the session's two counters exactly when the id is known, else 404 |
| Patients.UpdateMergesProfile | backend-fastapi/app/routers/patients.py:46 | after an update, the given fields carry their new values and every other key keeps its old value |
| Patients.CreateThenRead | backend-fastapi/app/routers/patients.py:27-69 | a created session read back has the payload's profile, is active, and reports zero totals |
| DoctorModel.NewAddress | backend-fastapi/app/models/doctor.py:26-31 | an address built without a country is in "India" |
| DoctorModel.NewFees | backend-fastapi/app/models/doctor.py:61-65 | default fees: currency "INR", no insurance accepted, no insurance providers |
| DoctorModel.AnyOpenEntry | backend-fastapi/app/models/doctor.py:149-152 | true exactly when some schedule entry names the day, ignoring case, and has at least one slot |
| DoctorModel.AddressParts | backend-fastapi/app/models/doctor.py:158-164 | the five parts in order: the street or empty, the city, the state or empty, the zip code or empty, the country |
| DoctorModel.DoctorMetadata.constructor | backend-fastapi/app/models/doctor.py:90-94 | fresh metadata has source "manual", is active, has zero searches and is stamped now |
| DoctorModel.Doctor.constructor | backend-fastapi/app/models/doctor.py:96-109 | a new doctor has no experience, availability or fees, speaks English and Hindi, and has fresh default metadata |
| DoctorModel.Doctor.IncrementSearchCount | backend-fastapi/app/models/doctor.py:139-142 | the search count goes up by one and the update time becomes now; nothing else changes |
| DoctorModel.Doctor.IsAvailableOn | backend-fastapi/app/models/doctor.py:144-152 | false without availability or with an empty schedule; otherwise true exactly when an entry for the day, in any case, has slots |
| DoctorModel.Doctor.FullAddress | backend-fastapi/app/models/doctor.py:154-165 | the non-empty parts of street, city, state, zip code and country, in that order, joined with ", "; empty exactly when every part is empty, and containing every part otherwise |
| DoctorModel.Doctor.ExperienceLevel | backend-fastapi/app/models/doctor.py:167-181 | "unknown" exactly without experience; otherwise "junior" below 2 years, "mid-level" below 10, "senior" below 20, else "expert", each in both directions |
| DoctorModel.ExperienceMonotone | backend-fastapi/app/models/doctor.py:167-181 | more years never gives a lower experience class |
| DoctorModel.DefaultExperienceIsJunior | backend-fastapi/app/models/doctor.py:17-18 | an experience left at its default of 0 years is "junior" (also lines 167-181) |
| DoctorModel.AvailabilityIgnoresCase | backend-fastapi/app/models/doctor.py:150 | the availability lookup gives the same answer for a day name and its lower-case form |
| DoctorModel.CityOnlyAddress | backend-fastapi/app/models/doctor.py:154-165 | an address with only a city and the default country reads "<city>, India" |
| PatientModel.SessionData.constructor | backend-fastapi/app/models/patient.py:7-12 | new session data has zero counters, is active and carries both clock readings |
| PatientModel.Patient.constructor | backend-fastapi/app/models/patient.py:30-39 | a new patient has the generated id, no name, email or age, and fresh session data created and last active at the given clock readings, with no checks, no searches, and active |
| PatientModel.Patient.UpdateLastActive | backend-fastapi/app/models/patient.py:49-50 | only the activity time changes, to now |
| PatientModel.Patient.IncrementSymptomChecks | backend-fastapi/app/models/patient.py:52-54 | the symptom-check counter goes up by one and the activity time becomes now; the other counter stays |
| PatientModel.Patient.IncrementDoctorSearches | backend-fastapi/app/models/patient.py:56-58 | the doctor-search counter goes up by one and the activity time becomes now; the other counter stays |
| PatientModel.CheckThenSearch | backend-fastapi/app/models/patient.py:49-58 | a new patient who checks once and searches once has one of each and the later activity time |
| SymptomAnalysisModel.NewRecommendation | backend-fastapi/app/models/symptom_analysis.py:21-25 | a recommendation given only its type and action has priority "medium" and no timeframe |
| SymptomAnalysisModel.NewAnalysis | backend-fastapi/app/models/symptom_analysis.py:46-53 | an analysis given only its risk level and confidence has every list empty and no specialist advice |
| SymptomAnalysisModel.Filter | backend-fastapi/app/models/symptom_analysis.py:90-102 | the list comprehension with a condition: empty on an empty list, a one-element list kept exactly when it passes, never longer, and holding exactly the passing elements |
| SymptomAnalysisModel.HighRiskConditions | backend-fastapi/app/models/symptom_analysis.py:90-95 | the filter of the conditions by probability at least 70 or severity "severe" or "critical", in order: exactly those conditions, and no more than there were |
| SymptomAnalysisModel.UrgentRecommendations | backend-fastapi/app/models/symptom_analysis.py:97-102 | the filter of the recommendations by priority "urgent" or "high", in order: exactly those recommendations, and no more than there were |
| SymptomAnalysisModel.DefaultPriorityNotUrgent | backend-fastapi/app/models/symptom_analysis.py:24 | a recommendation left at the default priority is never reported as urgent (also lines 97-102) |
| SymptomAnalysisModel.UrgentOfAppended | backend-fastapi/app/models/symptom_analysis.py:97-102 | the filter keeps order: adding recommendations appends their urgent ones after the existing urgent ones |
| SymptomAnalysisModel.IsRecentMonotone | backend-fastapi/app/models/symptom_analysis.py:85-88 | recent under one threshold means recent under every larger one, and an analysis is recent at its own creation exactly when the threshold is positive (`IsRecent` is `is_recent`: fewer than the threshold's hours since creation) |
| MainCors.AllowedOrigins | backend-fastapi/app/main.py:18-19 | the list of allowed origins is never empty |
| MainCors.OriginsClean | backend-fastapi/app/main.py:18-19 | every allowed origin is non-empty, has no surrounding white space and holds no comma |
| MainCors.PiecesHaveNoComma | backend-fastapi/app/main.py:19 | no stripped piece of the comma split holds a comma |
| MainCors.DefaultsToWildcard | backend-fastapi/app/main.py:18-19 | an unset, empty or blank-pieces-only `CORS_ORIGINS` allows "*" |
| MainCors.UnsetIsWildcard | backend-fastapi/app/main.py:18-19 | without `CORS_ORIGINS` the default "*" is read as the single origin "*" |
| MainCors.EmptyIsWildcard | backend-fastapi/app/main.py:18-19 | an empty `CORS_ORIGINS` leaves no piece, so "*" is allowed |
| MainCors.BlankIsWildcard | backend-fastapi/app/main.py:18-19 | " , " splits into two blank pieces, both dropped, so "*" is allowed |
| MainCors.OriginsRoundTrip | backend-fastapi/app/main.py:19 | a non-empty list of clean origins written comma-separated is read back as the same list |
| CoreServices.SelectLocation | backend-fastapi/core/services.py:33-44 | both coordinates truthy gives them; else a non-empty address gives the first geocoder match, "Address not found" for none, or the HTTP failure; else "Location information required" |
| CoreServices.ZeroLatitudeUsesAddress | backend-fastapi/core/services.py:33-44 | a latitude of 0.0 counts as missing: the address is used, and without one the request fails |
| CoreServices.SpecialtyFor | backend-fastapi/core/services.py:46-47 | "Dermatologist" exactly for "Skin Rash", "General Practitioner" exactly for everything else |
| CoreServices.TagOr | backend-fastapi/core/services.py:59-62 | `tags.get(key, "Unknown")`: the tag when present, "Unknown" only when missing, so an empty result comes only from an empty tag |
| CoreServices.ShapeDoctors | backend-fastapi/core/services.py:59-62 | succeeds exactly when every element has tags, and then gives one doctor per element, in order, with its name and address or "Unknown" and the specialty as type |
| CoreServices.FindNearbyDoctors | backend-fastapi/core/services.py:32-63 | the location's error, the Overpass failure, or the shaped elements; every doctor found has the condition's specialty |
| SymptomsRouter.ValidateSymptoms | backend-fastapi/app/routers/symptoms.py:8-16 | a request is accepted exactly when every severity is missing or one of mild, moderate, severe; a rejection points at a symptom whose severity fails |
| SymptomsRouter.Dump | backend-fastapi/app/routers/symptoms.py:27 | `model_dump()` always carries the name, and the severity key holds `None` exactly when no severity was sent |
| SymptomsRouter.DumpAll | backend-fastapi/app/routers/symptoms.py:27 | one dumped dict per symptom, in order |
| SymptomsRouter.ForwardedPatientInfo | backend-fastapi/app/routers/symptoms.py:17-27 | `req.patientInfo or {}`: a missing patient block is forwarded as the empty dict, a given one unchanged |
| SymptomsRouter.Analyze | backend-fastapi/app/routers/symptoms.py:23-28 | an empty list, and only that, gives 400 "No symptoms provided"; otherwise the success envelope around exactly the analysis of the dumped symptoms, which is the last-resort answer when the external block raises and otherwise has the risk level the severities of the dumped symptoms give |
| SymptomsRouter.MissingSeverityIsNotModerate | backend-fastapi/app/routers/symptoms.py:10-27 | through this endpoint a symptom without severity counts as neither severe nor moderate (two give "low"), whereas dicts lacking the key count as moderate (two give "medium") |
| SymptomsRouter.Medications | backend-fastapi/app/routers/symptoms.py:36-39 | always "success" around exactly the advice for the listed names: the error answer when the block raises; otherwise at most six medications, the basic ones for the names only when OpenFDA found nothing, the source "External APIs (OpenFDA)", no error, and the warnings and general advice of the names, with the notes and the educational disclaimer |
| SymptomsRouter.TextItemsNames | backend-fastapi/app/routers/symptoms.py:36-39 | the listed names, handed over as a list of strings, are read back by `get_medications` as the same names (gemini_ai.py:392-401) |
| SymptomsRouter.EmergencySigns | backend-fastapi/app/routers/symptoms.py:41-54 | always the same five distinct signs |
| SymptomCheckerPage.ValidationError | frontend/src/pages/SymptomChecker.tsx:31-44 | no error exactly when the trimmed text has at least 10 characters and the health check answered success; the blank message exactly for blank text; the short message exactly for non-blank text under 10 characters; the server message exactly for long enough text while the server is not known to be up |
| SymptomCheckerPage.FailureText | frontend/src/pages/SymptomChecker.tsx:76 | never empty, and the client's error itself whenever that is non-empty |
| SymptomCheckerPage.SubmissionOutcome | frontend/src/pages/SymptomChecker.tsx:31-84 | a request is sent exactly when the checks pass, once, with the parsed symptoms and `isAnalyzing` raised; the page navigates to /results with the text and the unwrapped analysis exactly when the server answered; otherwise a non-empty error toast, the blank message for blank text |
| SymptomCheckerPage.SymptomCheckerPageState.constructor | frontend/src/pages/SymptomChecker.tsx:11-15 | empty text, not analysing, server status unknown, nothing shown, navigated or sent |
| SymptomCheckerPage.SymptomCheckerPageState.CheckServerStatus | frontend/src/pages/SymptomChecker.tsx:23-26 | the health check's answer becomes the server status and nothing else changes |
| SymptomCheckerPage.SymptomCheckerPageState.HandleSubmit | frontend/src/pages/SymptomChecker.tsx:28-85 | a failed check adds its toast and changes nothing else; otherwise the submission's toast, navigation and request are recorded and `isAnalyzing` ends cleared |
| SymptomCheckerPage.SymptomCheckerPageState.Analyze | frontend/src/pages/SymptomChecker.tsx:46-84 | the `try` block and its `finally`: one request with `isAnalyzing` set, the success toast and navigation or the error toast, and `isAnalyzing` cleared |
| SymptomCheckerPage.SymptomCheckerPageState.ShowResult | frontend/src/pages/SymptomChecker.tsx:65-78 | on success the success toast and the navigation to /results with the text and the data; otherwise the client's error (or the fallback text) as an error toast; nothing else changes |
| SymptomCheckerPage.ParsedNamesClean | frontend/src/pages/SymptomChecker.tsx:50-53 | every parsed name is non-empty, trimmed and holds no comma or line break |
| SymptomCheckerPage.ParseEmptyIff | frontend/src/pages/SymptomChecker.tsx:50-53 | nothing is parsed exactly when the text holds only white space and commas |
| SymptomCheckerPage.CommasPassAsNoSymptoms | frontend/src/pages/SymptomChecker.tsx:31-58 | ten or more commas pass every check and are sent as an empty symptom list |
| SymptomCheckerPage.SymptomObjectsNormalize | frontend/src/pages/SymptomChecker.tsx:54-58 | the page's symptom objects for non-empty names are accepted by the API client as plain symptoms with those names, in order |
| SymptomCheckerPage.ParsedPayloadNormalizes | frontend/src/pages/SymptomChecker.tsx:50-63 | the parsed text with the empty patient block always makes a valid payload of one plain symptom per parsed name (`ParseSymptomText` is the split, trim and filter of lines 50-53) |
| SymptomCheckerPage.EnabledSubmitPassesTextChecks | frontend/src/pages/SymptomChecker.tsx:31-44 | an enabled submit button means both text checks pass; only the server check can still refuse (also lines 221) |
| SymptomCheckerComponent.Without | frontend/src/components/SymptomChecker.jsx:52 | `filter((_, i) => i !== index)`: the list without the entry at an index in range, the list unchanged for any other index |
| SymptomCheckerComponent.Settle | frontend/src/components/SymptomChecker.jsx:98-104 | a successful call stores its data and leaves no error; a failed one stores the client's error and no result |
| SymptomCheckerComponent.SymptomForm.constructor | frontend/src/components/SymptomChecker.jsx:11-25 | one empty symptom field, an empty patient block, not loading, no result, no error, server status unknown |
| SymptomCheckerComponent.SymptomForm.HandleSymptomChange | frontend/src/components/SymptomChecker.jsx:38-42 | the field at the index takes the value; the number of fields and every other field stay |
| SymptomCheckerComponent.SymptomForm.AddSymptom | frontend/src/components/SymptomChecker.jsx:45-47 | exactly one empty field is appended |
| SymptomCheckerComponent.SymptomForm.RemoveSymptom | frontend/src/components/SymptomChecker.jsx:50-55 | with at least two fields the indexed one goes and the rest keep their order; the last field is never removed, so the list is never empty |
| SymptomCheckerComponent.SymptomForm.HandlePatientInfoChange | frontend/src/components/SymptomChecker.jsx:58-63 | the named patient field takes the value; the other fields stay |
| SymptomCheckerComponent.SymptomForm.CheckServerStatus | frontend/src/components/SymptomChecker.jsx:32-35 | the health check's answer becomes the server status and nothing else changes |
| SymptomCheckerComponent.SymptomForm.HandleAnalyzeSymptoms | frontend/src/components/SymptomChecker.jsx:66-111 | all-blank fields set the error and send nothing; otherwise one request with the trimmed non-blank symptoms and the patient data, made with loading set and error and result cleared, then the result or the error is stored and loading ends cleared |
| SymptomCheckerComponent.SymptomForm.SettleResult | frontend/src/components/SymptomChecker.jsx:98-104 | a successful call stores its data; a failed one stores the client's error; nothing else changes |
| SymptomCheckerComponent.RemoveKeepsOthers | frontend/src/components/SymptomChecker.jsx:50-55 | removing keeps every other field, in order, and at least one field |
| SymptomCheckerComponent.RefusedIffAllBlank | frontend/src/components/SymptomChecker.jsx:68-72 | the list is refused exactly when every field is blank |
| SymptomCheckerComponent.FieldReachesPayload | frontend/src/components/SymptomChecker.jsx:80-96 | every non-blank field reaches the API client trimmed, as a default symptom, and the symptom payload is always accepted |
| SymptomCheckerComponent.PatientSent | frontend/src/components/SymptomChecker.jsx:87-92 | the patient block finally sent: an empty gender or allergies text as null, the history or [], no conditions, and an age that is null when empty or unreadable and the parsed number otherwise |
| SymptomCheckerComponent.DecimalAgeSent | frontend/src/components/SymptomChecker.jsx:88 | an age typed as the decimal digits of a positive number arrives as that number |
| SymptomCheckerComponent.EnabledAnalyzeMeansServerUp | frontend/src/components/SymptomChecker.jsx:230 | an enabled analyse button means not loading and a successful health check (`AnalyzeDisabled` is the button's `disabled`) |
| FindDoctorsPage.ErrorText | frontend/src/pages/FindDoctors.tsx:105 | never empty: the thrown message itself whenever that is non-empty, the generic message otherwise |
| FindDoctorsPage.SearchPayload | frontend/src/pages/FindDoctors.tsx:129-137 | nothing exactly when the trimmed address is empty and no coordinates are stored; the trimmed address alone when it is non-empty, else the stored coordinates |
| FindDoctorsPage.ToDisplay | frontend/src/pages/FindDoctors.tsx:96-102 | fails exactly on a null or undefined doctor or a distance that is not a number; keeps the name, shows specialty, address and phone as given (`null` when left out), and has a distance, the given one, exactly when `distance_km` is neither null nor undefined |
| FindDoctorsPage.ResponseDoctors | frontend/src/pages/FindDoctors.tsx:96-102 | a missing or null `doctors` throws the read error and any other non-array "is not a function"; an array gives a list exactly when every element displays, and then each element's display record in order |
| FindDoctorsPage.FetchOutcome | frontend/src/pages/FindDoctors.tsx:75-106 | a thrown fetch gives its message; an answer that is not ok gives its body text, or "API error: <status>" when that is empty; an unreadable body gives the parse error and a null body the read error of its centre, none of them storing anything; otherwise the centre and raw list are stored and the display list is `ResponseDoctors` of the body |
| FindDoctorsPage.FindDoctorsPageState.constructor | frontend/src/pages/FindDoctors.tsx:38-47 | not loading, no error, no doctors, no centre, permission pending, empty address, no coordinates, radius 5 and limit 20 |
| FindDoctorsPage.FindDoctorsPageState.FetchDoctors | frontend/src/pages/FindDoctors.tsx:75-110 | posts the payload with the radius and the limit; the centre and raw list are stored when reached; a success replaces the display list and leaves no error, any failure empties it and sets a non-empty error; loading ends cleared |
| FindDoctorsPage.FindDoctorsPageState.HandleSearch | frontend/src/pages/FindDoctors.tsx:129-137 | a non-blank address is searched trimmed, else the stored coordinates, with the fetch's full effect; with neither, the error is set and nothing else changes; the address, coordinates, permission, radius and limit never change |
| FindDoctorsPage.FindDoctorsPageState.UsePosition | frontend/src/pages/FindDoctors.tsx:56-72 | a position found grants permission, stores the coordinates and fetches around them with the fetch's full effect; no geolocation or a failure denies permission and changes nothing else (also lines 112-127) |
| FindDoctorsPage.FindDoctorsPageState.Mount | frontend/src/pages/FindDoctors.tsx:49-73 | without conditions in the navigation state it redirects to "/" and changes nothing else; otherwise it grants permission and fetches exactly when a position was found, and only denies permission when none was |
| FindDoctorsPage.AddressBeatsCoordinates | frontend/src/pages/FindDoctors.tsx:129-137 | a non-blank address is posted alone, trimmed, with the radius and limit and no coordinates; nothing is searched exactly when the address is blank and no coordinates are stored (also lines 79-83) |
| FindDoctorsPage.CoordinatesWhenNoAddress | frontend/src/pages/FindDoctors.tsx:132-133 | with a blank address the stored latitude and longitude are posted with the radius and the limit, and nothing else (also lines 79-83) |
| FindDoctorsPage.DisplayKeepsOrder | frontend/src/pages/FindDoctors.tsx:96-102 | the display list keeps the server list's length and order; each record keeps the name, shows a missing specialty, address or phone as null, and has no distance exactly when `distance_km` is null or undefined |
| FindDoctorsPage.FailureMessages | frontend/src/pages/FindDoctors.tsx:89-105 | a non-ok response shows its body text, or "API error: " and the status when that is empty; the generic message appears only for an empty or identical thrown message |
| FindDoctorsPage.NullDoctorFailsAll | frontend/src/pages/FindDoctors.tsx:96-106 | one null doctor in the list makes the whole mapping throw, so no doctor is shown |
| ResultsPage.RiskSeverity | frontend/src/pages/Results.tsx:102 | the badge of a risk level is always one of mild, moderate, serious |
| ResultsPage.RiskSeverityMap | frontend/src/pages/Results.tsx:102 | "serious" exactly for risk "high", "moderate" exactly for "medium", "mild" for everything else |
| ResultsPage.BackendRiskBadges | frontend/src/pages/Results.tsx:102 | the rule-based analysis' high, medium and low risks give the serious, moderate and mild badges, and the last-resort "unknown" risk the mild one |
| ResultsPage.HandedOverConditions | frontend/src/pages/Results.tsx:51-53 | the handed-over analysis' conditions, converted as the page's own request converts them, and always a list (also lines 99-103) |
| ResultsPage.HandedOverConditionsAsWritten | frontend/src/pages/Results.tsx:52 | `analysisResult.conditions || []`: the entry when truthy, else an empty list, so never falsy |
| ResultsPage.ConvertCondition | frontend/src/pages/Results.tsx:99-103 | fails exactly on a null or undefined condition; keeps the name, carries the given badge and a truthy description |
| ResultsPage.ConvertConditions | frontend/src/pages/Results.tsx:99-103 | always a list: empty for a missing list, one entry per condition when no condition is null or undefined, a failure exactly when one is, and a failure for a list that is not an array |
| ResultsPage.TreatmentApproach | frontend/src/pages/Results.tsx:110 | never empty: the default text for missing or null recommendations |
| ResultsPage.TreatmentApproachCases | frontend/src/pages/Results.tsx:110 | for an array, a text exactly when no recommendation is null or undefined, and then the actions joined with ", " or the default when that join is empty; any other set value throws |
| ResultsPage.Medication | frontend/src/pages/Results.tsx:108-114 | no summary without a non-empty suggestion list; a summary only for a non-empty array, with a non-empty treatment text and the specialist text exactly when a specialist is recommended |
| ResultsPage.MedicationCases | frontend/src/pages/Results.tsx:108-114 | a non-empty suggestion value that is no array throws; an array gives a summary exactly when the treatment text is set and no suggestion is null or undefined, holding that treatment text and the "name (dosage)" lines joined with ", " |
| ResultsPage.ProcessResult | frontend/src/pages/Results.tsx:95-125 | the conditions are always a list; any status other than "success" shows the response-error condition; under "success" a missing data entry throws and a falsy analysis shows the response error; a medication summary only from a success with a truthy analysis |
| ResultsPage.ProcessedAnalysis | frontend/src/pages/Results.tsx:95-114 | a success with a truthy analysis loads exactly when the conditions convert and the medication summary does not throw, and then loads those conditions and that summary |
| ResultsPage.FallbackOutcome | frontend/src/pages/Results.tsx:58-139 | symptoms that are not text end in the network-error condition of `symptoms.split`; a medication summary only from an ok answer with a JSON body |
| ResultsPage.FallbackOutcomeCases | frontend/src/pages/Results.tsx:58-139 | for text symptoms: a thrown fetch, "API error: <status>" for an answer that is not ok, and an unreadable body each give the network-error condition with that message; otherwise what `ProcessResult` loads, or the network error with what it threw |
| ResultsPage.RecommendationText | frontend/src/pages/Results.tsx:276-287 | fails exactly on null; a string shows itself; an object or array action that is truthy shows that action, else a truthy description; any other value with neither is shown serialized |
| ResultsPage.ShownRecommendations | frontend/src/pages/Results.tsx:276-287 | nothing without a non-empty list; a non-empty value that is no array throws; an array gives a list exactly when none of its first three items is null, and then the first three items' texts (or all of a shorter list) in order |
| ResultsPage.ResultsPageState.constructor | frontend/src/pages/Results.tsx:37-42 | the symptom text and the analysis (or null) from the navigation state, loading, no conditions, no medication summary |
| ResultsPage.ResultsPageState.Load | frontend/src/pages/Results.tsx:44-142 | without symptom text it only navigates to /symptom-checker; a handed-over analysis sets `analysisResult.conditions || []` without a request; otherwise the request is sent when the text can be split and its outcome, a list, is shown; loading ends cleared and the conditions are never falsy |
| ResultsPage.ResultsPageState.AnalyzeSymptoms | frontend/src/pages/Results.tsx:58-139 | the request is recorded exactly when the symptoms can be split; the outcome's conditions (a list) are shown, its medication summary replaces the old one only when it is set, and loading ends cleared |
| ResultsPage.FallbackConditionsAreList | frontend/src/pages/Results.tsx:99-135 | every outcome of the page's own request sets a list of conditions |
| ResultsPage.SeverityColorsDistinct | frontend/src/pages/Results.tsx:144-155 | each of the three badges has its own colour, none of them the fallback one (`SeverityColor` is `getSeverityColor`) |
| ResultsPage.SeverityEmojisDistinct | frontend/src/pages/Results.tsx:157-168 | each of the three badges has its own emoji, none of them the fallback one (`SeverityEmoji` is `getSeverityEmoji`) |
| ResultsPage.ConvertedConditions | frontend/src/pages/Results.tsx:99-103 | one shown condition per condition, in order, with its name, its description or "No description available", and the analysis' single risk badge |
| ResultsPage.FallbackOnePerPart | frontend/src/pages/Results.tsx:63-68 | the request has one symptom per comma-separated part, in order, trimmed, blank parts included |
| ResultsPage.FailuresShowOneError | frontend/src/pages/Results.tsx:88-90 | a thrown fetch, a non-ok status or an unreadable body shows exactly one moderate "Network Error" condition and no medication summary; a non-ok status reads "API error: <status>" (also lines 126-135) |
| ResultsPage.UnexpectedAnswerShowsResponseError | frontend/src/pages/Results.tsx:95-125 | an answer that is not a success envelope with a truthy analysis shows the one "API Response Error" condition, with the moderate colour |
| ResultsPage.FallbackRequestShape | frontend/src/pages/Results.tsx:63-74 | the request is built exactly when the symptoms are text, with session "web-session", an empty patient block and the split symptoms |
| ResultsPage.RecommendationsShown | frontend/src/pages/Results.tsx:276-287 | at most three recommendations are shown, from the list's front, each one's non-empty action when it has one |
| ResultsPage.NullRecommendationThrows | frontend/src/pages/Results.tsx:276-287 | a null among the first three recommendations makes the list fail to render |
| ResultsPage.MedicationSetForSuggestions | frontend/src/pages/Results.tsx:107-114 | the medication summary is set exactly for a non-empty suggestion list, with the default treatment text when there are no recommendations and the prescription text chosen by the specialist flag |
| ResultsPage.AnalysisKeys | backend-fastapi/app/services/gemini_ai.py:351-366 | the backend's analysis has its conditions under "possibleConditions", one JSON condition per condition, its risk under "riskLevel", and no "conditions" key |
| ResultsPage.HandOver | frontend/src/pages/SymptomChecker.tsx:69-74 | the symptom checker hands this page exactly the analysis of the backend's success envelope |
| ResultsPage.HandedOverConditionsLost | frontend/src/pages/Results.tsx:52 | as written, every analysis the symptom checker hands over lists no condition at all |
| ResultsPage.HandedOverPageListsNothing | frontend/src/pages/Results.tsx:44-55 | the page opened with what the symptom checker hands over stops loading, sends no request and lists no condition |
| ResultsPage.ConditionJsonShown | frontend/src/pages/Results.tsx:99-103 | a backend condition is shown with its name, its description or the default, and the given badge |
| ResultsPage.HandedOverConditionsShown | frontend/src/pages/Results.tsx:52 | read from "possibleConditions", every condition of every backend analysis is listed, in order, with its name, description and the risk badge (also lines 99-103) |
| ResultsPage.BackendConditionsConvert | frontend/src/pages/Results.tsx:99-103 | the conditions of every analysis the backend sends convert without a throw |
| ResultsPage.TreatmentOfItems | frontend/src/pages/Results.tsx:110 | a recommendation list of objects gives their actions joined with ", ", or the default when that is empty |
| ResultsPage.BackendTreatment | frontend/src/pages/Results.tsx:110 | for every backend analysis the treatment text is its recommendations' actions joined with ", ", or the default when that is empty |
| ResultsPage.MedicationOfLines | frontend/src/pages/Results.tsx:108-114 | a non-empty list of medication objects with a set treatment text gives a summary with that text and their lines joined with ", " |
| ResultsPage.BackendMedication | frontend/src/pages/Results.tsx:108-114 | for every backend analysis the summary is set exactly when it suggests a medication, with the treatment text, each "name (dosage)" joined with ", ", and the specialist or over-the-counter note its specialist flag picks |
| ResultsPage.OwnRequestShowsAnalysis | frontend/src/pages/Results.tsx:58-139 | the page's own request answered with the backend's success envelope shows exactly the converted conditions of that analysis and its medication summary |
| ResultsPage.FindDoctorsLinkAccepted | frontend/src/pages/Results.tsx:389 | whatever the page's own request ends in, the conditions its doctor-search link carries pass that page's guard |
| ResultsPage.HandedOverLinkAccepted | frontend/src/pages/Results.tsx:389 | the conditions of a handed-over analysis, read as written or from "possibleConditions", also pass the doctor search's guard |
| ResultsPage.BackFromFindDoctors | frontend/src/pages/FindDoctors.tsx:154 | the doctor search's Back link, with empty symptom text, sends the user on to /symptom-checker without a request, still loading |

## Left out

- The Gemini path of `analyze_symptoms`, and the prompts and parsing that go with it, are not modelled. The model covers the analysis when Gemini is not configured, its call fails or its reply holds no JSON. What the external services return is a parameter. The fetchers themselves are network I/O and are not modelled: `fetch_from_umls_api`, `fetch_from_mesh_api`, `fetch_from_openfda_api`, `geocode_address` and `fetch_overpass`.
- `Doctor.calculate_distance` in backend-fastapi/app/models/doctor.py:121 and the haversine distance in nearby.py are floating-point trigonometry. The rounding of distances to two decimals is left out too. The nearby search takes the rounded distance as a function parameter.
- The mock branch of `nearby_search` is not modelled. It is switched on by the `MOCK_NEARBY` environment variable and returns two fixed doctors. The conversion `int(radius_km * 1000)` only feeds the Overpass query, which is a parameter.
- Nearby.NearbySearch: the sort is modelled on a sequence value rather than in place. Its contract states that the list is sorted and a permutation, but not that the sort is stable. With stability, doctors at equal distances would keep Overpass' order.
- GeminiAI.MedicationSymptomNames: names that are not strings are modelled by their text. Examples are a dictionary in a list that starts with a string, or a `None` name. In the source, `.lower()` on such a name raises instead.
- SymptomCheckerPage.ValidationError: the ten-character minimum is counted in characters. JavaScript's `trim().length` counts UTF-16 code units, so a character outside the Basic Multilingual Plane, such as an emoji, counts twice there. The same holds for SymptomCheckerPage.SubmitDisabled (frontend/src/pages/SymptomChecker.tsx:221).
- The `except httpx.TimeoutException` branch of `nearby_search` (backend-fastapi/app/routers/nearby.py:177-178) is not modelled because no input reaches it. `fetch_overpass` catches every exception of each mirror, timeouts included, and raises the 502 error once all mirrors have failed (nearby.py:95-102). So the 504 answer is never sent.
- Lower-casing is ASCII only. Python's `str.lower` and JavaScript's `toLowerCase` use Unicode tables.
- Text.Trim strips only the six ASCII white-space characters that both languages strip: space, tab, line feed, vertical tab, form feed and carriage return. Python's `str.strip()` also strips the ASCII separators `\x1c` to `\x1f`, which JavaScript's `trim` keeps. Both also strip non-ASCII white space, such as the no-break space, and the two sets differ there too.
- Js.ToText: numbers print as a placeholder. JavaScript's shortest round-trip decimal formatting is not modelled. In the same way, the `toFixed(1)` text of a distance and the `JSON.stringify` text of an error body are carried as values, not as their characters.
- ResultsPage.NonEmptyList models `x && x.length > 0` on strings and arrays. For an object it only reads a numeric `length` field. JavaScript's conversion of other `length` values to numbers is not modelled.
- The `catch` blocks in `handleSubmit` (frontend/src/pages/SymptomChecker.tsx:79-81) and `handleAnalyzeSymptoms` (frontend/src/components/SymptomChecker.jsx:105-107) are not modelled. The API client turns every failure into a result, so nothing reaches them.
- `handleFindDoctors` in frontend/src/components/SymptomChecker.jsx and the rendering of all four front-end files are not modelled. This includes markup, toasts' styling and the radius and limit inputs. The navigations and toasts the handlers produce are recorded.
- SymptomCheckerComponent.SymptomForm.HandleSymptomChange requires an index inside the list. The form only calls it with the index of a rendered field. JavaScript would extend the array for a larger index.
- backend-fastapi/api/endpoints.py is not part of this model. It only maps `ValueError` to 400 and other exceptions to 500 around `core/services.py`, and the error datatype of `CoreServices` keeps that distinction.
- DoctorModel.NewFees: the optional `consultationFee` field of `Fees`, with its in-person and online amounts as floats, is not modelled. It defaults to `None`, and no modelled operation reads it.
- The pydantic checks on the fields of a stored `Doctor` are not modelled. The model covers the defaults and the methods of backend-fastapi/app/models/doctor.py.
- Logging on both sides is not modelled.

## Findings

| source | as written | input that shows it | evidently intended | confidence | as-written member | corrected member |
|---|---|---|---|---|---|---|
| backend-fastapi/app/routers/nearby.py:30-35 | The pairing check is a field validator on `longitude`. Pydantic does not run it when `longitude` is left out, so a request with only a latitude is accepted. The search then ignores the latitude and, with no address, answers 400 asking for a location. | `{"latitude": 10.0}` | reject any request that sends one coordinate without the other | not executed | Nearby.ValidateRequestAsWritten, Nearby.LatitudeOnlyAccepted | Nearby.ValidateRequest, Nearby.ValidationsAgreeUnlessLongitudeAbsent |
| frontend/src/pages/Results.tsx:52 | The page reads `analysisResult.conditions`, but the backend's analysis holds its conditions under `possibleConditions`. Every analysis handed over from the symptom checker is therefore shown with no condition. | any successful analysis, e.g. `{"symptoms": [{"name": "fever"}]}` posted to `/symptoms/analyze` | show the analysis' `possibleConditions`, converted as the page converts its own answer | not executed | ResultsPage.HandedOverConditionsAsWritten, ResultsPage.HandedOverConditionsLost, ResultsPage.HandedOverPageListsNothing | ResultsPage.HandedOverConditions, ResultsPage.HandedOverConditionsShown |
