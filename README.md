# food_fellas back-end rules in Dafny

food_fellas is a recipe-sharing app. Its server side is a set of Firebase Cloud Functions.
They keep denormalised fields on recipe documents up to date. They maintain rating aggregates
on recipes and their authors. They compute weekly recommendations, mirror recipes and users
into a Typesense search index, repair old data, and track App Store and Google Play
subscription status. A command-line script sends test push notifications. The iOS client
parses hex colour strings for its gradient background.

This project models those rules in Dafny and proves properties of them:

- Firestore documents are JSON-like values, `Js.Value`, with JavaScript truthiness.
- A collection is a sequence of `Store.Entry(id, data)` in query order.
- The whole database is the class `Store.Firestore`. Handlers that write to it are methods
  with `modifies` clauses. Each method is proved equal to a pure step function, and the
  lemmas are stated about those step functions.
- Search-index collections are the class `SearchIndex.Index`, which holds a map from
  document id to projection.
- Anything the code calls but does not define is a parameter:
  - the clock;
  - the embedding service;
  - the Google Play Developer API;
  - Firebase Cloud Messaging's `send`;
  - whether a Typesense import is accepted;
  - whether a Firestore batch commit is accepted;
  - the hostname that URL parsing yields.

Modules:

- `Js`: values, truthiness, `||`, optional chaining, `trim`, `split`, `join`, `Number`,
  `parseInt`, `toLowerCase`.
- `Store`: collections, set-with-merge, `update`, `where`, and the `Firestore` class.
- `Http`: replies.
- `Ratings`, `Denormalise` and `Recommendations`: `functions/index.js`.
- `SearchIndex`, `RecipesSync` and `UsersSync`: the Typesense mirror.
- `BackfillTs`, `UnitsServings` and `Embeddings`: the three backfill scripts.
- `PrintUrl`: `functions/extractRecipeFromWeb.js`.
- `AppleSubscription` and `GoogleSubscription`: the subscription handlers.
- `Notifications`: `functions/testNotifications.js`.
- `HexColor`: `ios/Runner/GradientView.swift`.

## Model

| member | source | states |
|---|---|---|
| Js.Get | functions/index.js:164 | Reading a property throws exactly when the object is undefined or null. |
| Js.TrimStart | functions/index.js:202 | The leading half of `trim` removes only JS white space: every character it drops from the front is white space, and the result does not start with white space. |
| Js.TrimEnd | functions/index.js:202 | The trailing half of `trim` removes only JS white space: every character it drops from the end is white space, and the result does not end with white space. |
| Js.TrimStartPadded | functions/testNotifications.js:28 | The leading half of `trim` removes exactly a white-space prefix in front of a non-space character. |
| Js.TrimEndPadded | functions/testNotifications.js:28 | The trailing half of `trim` removes exactly a white-space suffix after a non-space character. |
| Js.TrimPadded | functions/testNotifications.js:28 | `trim` gives back exactly the text inside the white space: text with no white space at either end, padded with any white space on both sides, trims to itself. |
| Js.TrimInside | functions/testNotifications.js:28 | Every character of a trimmed string comes from the original. |
| Js.TrimStartSuffix | functions/index.js:202 | `trimStart` returns a suffix of its input. |
| Js.TrimEndPrefix | functions/index.js:202 | `trimEnd` returns a prefix of its input. |
| Js.TrimEmptyIffAllSpace | functions/index.js:202 | `name.trim() !== ""` holds exactly when the name has a non-space character. |
| Js.TrimStartEmpty | functions/index.js:202 | `trimStart` empties a string exactly when the string is all white space. |
| Js.TrimEndKeepsLead | functions/index.js:202 | `trimEnd` keeps a string whose first character is not white space non-empty. |
| Js.ToLowerAscii | functions/testNotifications.js:28 | `toLowerCase` keeps the length, maps A-Z to a-z and keeps every other character. |
| Js.IndexOfChar | functions/testNotifications.js:28 | The search for a separator finds its first occurrence, or the end when there is none. |
| Js.Split | functions/testNotifications.js:28 | `split(",")` yields at least one piece, and no piece contains the separator. |
| Js.JoinSplit | functions/testNotifications.js:28 | Joining the pieces of `split` with the same separator gives back the string. |
| Js.SplitJoin | functions/testNotifications.js:28 | Splitting a join of separator-free pieces gives back the pieces. |
| Js.JoinCons | functions/backfillEmbeddings.js:55-61 | `join` puts the separator between the first element and the join of the rest. |
| Js.NatToString | functions/index.js:307 | The decimal spelling of a number is a non-empty digit string. |
| Js.DecimalOfNatToString | functions/index.js:307 | Reading back the decimal spelling of a number gives the number. |
| Js.IntToStringInjective | functions/index.js:307 | Distinct integers have distinct spellings, so histogram keys never collide. |
| Js.StringToNumber | functions/recipesSync.js:15 | `Number` of a non-empty digit string is its decimal value. |
| Js.DigitPrefix | functions/googleSubscription.js:42 | `parseInt` reads the leading digit run, which is the whole string when it is all digits. |
| Js.ParseInt | functions/googleSubscription.js:42 | `parseInt` of a non-empty digit string is its decimal value. |
| Js.NumberOrZero | functions/recipesSync.js:15 | `Number(x \|\| 0)` is 0 for a falsy field and the number itself for a number. |
| Js.ToText | functions/googleSubscription.js:42 | Converting a string to text returns it unchanged. |
| Js.Truthy | functions/backfillUnitsAndServings.js:32 | JavaScript truthiness: undefined and null are falsy, and every array and object is truthy. |
| Js.Or | functions/backfillUnitsAndServings.js:38 | `a \|\| b` yields one of its operands, and is truthy exactly when either operand is. |
| Js.OptGet | functions/appleSubscription.js:13 | `v?.key` is the property when reading it succeeds, and undefined on undefined or null. |
| Js.ToNumberSpec | functions/recipesSync.js:15 | `Number(v)` (`Js.ToNumber`): undefined is NaN, a number is itself, every other falsy value and the empty array are 0. |
| Js.SingletonArrayNumber | functions/recipesSync.js:15 | `Number([n])` is n, because the array's text is n's decimal spelling. |
| Js.JoinTextSpec | functions/backfillEmbeddings.js:55-61 | An element's text inside `join` (`Js.JoinText`): a string is itself, undefined and null are empty, and a boolean's text does not read as a number. |
| Store.Ids | functions/index.js:233-237 | The ids of a collection list its documents' ids in query order. |
| Store.Find | functions/index.js:255 | A document is found exactly when its id is in the collection. |
| Store.FindEntry | functions/index.js:255 | With unique ids, looking up a document's id yields that document's data. |
| Store.SetMerge | functions/index.js:211-218 | A set-with-merge never removes a document. |
| Store.SetMergeSpec | functions/index.js:211-218 | A set-with-merge leaves the target holding its old fields overlaid by the merged ones, creating it if absent. No other document changes. |
| Store.SetMergeFind | functions/index.js:255-261 | Looking up the merged document gives its old body plus the fields; every other id is unchanged. |
| Store.MergeAllAppend | functions/googleSubscription.js:22-53 | Applying the writes of two consecutive runs equals applying them one after the other. |
| Store.MergeAllOthers | functions/googleSubscription.js:22-53 | A sequence of writes leaves any document it does not name unchanged. |
| Store.MergeAllWritten | functions/backfillEmbeddings.js:69-74 | With unique write ids, a written document ends as its old body plus its write. |
| Store.MergeAllField | functions/googleSubscription.js:45-47 | A one-field write sets exactly that field on the existing document. |
| Store.Update | functions/appleSubscription.js:22 | `update` fails with NOT_FOUND exactly when the document does not exist; otherwise it merges the fields and keeps the set of ids. |
| Store.SetMergeIdempotent | functions/index.js:211-218 | Repeating a set-with-merge with the same fields changes nothing. |
| Store.SetMergeAt | functions/index.js:211-218 | With unique ids, a merge into an existing document replaces that entry in place by its old body plus the fields. |
| Store.EntryBody | functions/index.js:320-322 | With unique ids, reading an existing document's body (`Store.BodyOrEmpty`) gives that entry's data. |
| Store.MergeAll | functions/googleSubscription.js:22-53 | Applying a sequence of merges removes no document and adds at most one per write. |
| Store.DocId | functions/index.js:74 | `doc(id)` accepts exactly a non-empty string without '/'. |
| Store.WhereEq | functions/index.js:233-237 | `where(field, "==", v)` returns only documents whose field equals v, and every such document, never more than the collection holds. |
| Store.WhereEqFilters | functions/index.js:233-237 | The query result is the collection filtered: an order-preserving subsequence holding each matching document as often as the collection does, and no other document. |
| Store.Query | functions/index.js:233-237 | The query throws exactly when the compared value is undefined. |
| Store.Firestore.RatingsOf | functions/index.js:295-298 | A recipe with no rating documents has an empty rating list. |
| Ratings.ComputeRecipeAggregate | functions/index.js:298-310 | The aggregate loop computes the count, the histogram seeded with keys 1..5, and the average (0 when there are no ratings). |
| Ratings.Aggregate | functions/index.js:298-310 | The aggregate counts every rating, and its histogram is keyed by 1..5 plus every rating value seen. |
| Ratings.HistogramSnoc | functions/index.js:302-308 | Each rating increments only its own histogram key. |
| Ratings.HistogramPartitionsCount | functions/index.js:302-308 | For ratings 1..5, the histogram (`Ratings.Histogram`) has exactly keys 1..5 and its counts sum to `ratingsCount`. |
| Ratings.StarTotal | functions/index.js:302-308 | The occurrences of the five stars add up to the number of ratings. |
| Ratings.SumBounds | functions/index.js:310 | The star total of n ratings lies between n and 5n. |
| Ratings.MeanWithinStars | functions/index.js:310 | A non-empty set of 1..5 ratings averages (`Ratings.Mean`) between 1 and 5. |
| Ratings.AggregateDeterminedByRatings | functions/index.js:298-317 | The aggregate depends only on the multiset of ratings, not on their query order. |
| Ratings.SumPermutation | functions/index.js:302-308 | Reordering the ratings does not change their total. |
| Ratings.RatingScenario | functions/index.js:300-310 | Ratings [5,3,4] give average 4, count 3 and histogram {1:0,2:0,3:1,4:1,5:1}. Removing the 3 gives 4.5 with count 2. No ratings give 0 with count 0. |
| Ratings.IntToStringInjectiveAll | functions/index.js:307 | No two ratings share a histogram key. |
| Ratings.AuthorTotals | functions/index.js:242-249 | The author loop sums avg·count (`Ratings.WeightedTotal`) and count (`Ratings.ReviewTotal`) over the authored recipes. |
| Ratings.UnratedRecipeAddsNoWeight | functions/index.js:244-248 | A recipe with no reviews changes neither total nor the author's average. |
| Ratings.AuthorAverageWithin | functions/index.js:252 | When every recipe's average lies in [lo, hi] and there are reviews, so does the author's average (`Ratings.AuthorAverage`). |
| Ratings.WeightedTotalWithin | functions/index.js:247-248 | The weighted total lies between lo and hi times the review total, which is never negative. |
| Ratings.AuthorScenario | functions/index.js:239-252 | Recipes (4.0, 3) and (0, 0) give the author 3 reviews and average 4.0. |
| Ratings.AuthorWritesDiffer | functions/index.js:255-261 | The two author updates (`Ratings.RecipeStatsFields`, `Ratings.AverageRatingFields`) agree on `averageRating`. `updateUserRecipeStats` has no `totalReviews` (see 356-359), and `updateUserAverageRating` has no `recipeCount`. |
| Ratings.UserStepsKeepRecipes | functions/index.js:335-360 | Neither author update writes to a recipe. |
| Ratings.UserAverageRatingFrame | functions/index.js:335-360 | `updateUserAverageRating` (`Ratings.UserAverageRatingStep`) keeps the set of users, because `update` never creates one. A failed run writes nothing. |
| Ratings.UserRecipeStatsFrame | functions/index.js:232-262 | `updateUserRecipeStats` (`Ratings.UserRecipeStatsStep`): a failed run writes nothing. A completed run had a usable user id, and that user then exists, created by the merge if it was missing. |
| Ratings.RecipeRatingFrame | functions/index.js:288-328 | `updateRecipeRating` (`Ratings.RecipeRatingStep`) keeps the sets of recipes and users. A missing recipe fails with NOT_FOUND and writes nothing. |
| Ratings.UserAverageRatingIdempotent | functions/index.js:335-360 | Running `updateUserAverageRating` twice leaves the store as one run does. |
| Ratings.UserRecipeStatsIdempotent | functions/index.js:232-262 | Running `updateUserRecipeStats` twice leaves the store as one run does. |
| Ratings.RecipeRatingIdempotent | functions/index.js:288-328 | Recomputing the recipe aggregate with an unchanged rating set writes the same values again. |
| Ratings.UpdateUserAverageRating | functions/index.js:335-360 | The handler leaves recipes and users exactly as the step function says, and leaves ratings and recommendations unchanged. |
| Ratings.UpdateUserRecipeStats | functions/index.js:232-262 | The helper leaves recipes and users exactly as the step function says, and leaves ratings and recommendations unchanged. |
| Ratings.UpdateRecipeRating | functions/index.js:288-328 | The trigger writes the aggregate of the recipe's current ratings, then cascades to its author without checking `authorId`. |
| Denormalise.NameOf | functions/index.js:200-201 | The name callback throws exactly on an undefined or null element; otherwise it yields a truthy name or "". |
| Denormalise.MapNames | functions/index.js:200-201 | `map` either returns the callback's result for every element in order, or throws TypeError because some element makes the callback throw. |
| Denormalise.MapNamesOk | functions/index.js:200-201 | When the callback succeeds everywhere, `map` returns exactly those results. |
| Denormalise.KeepNonBlank | functions/index.js:202 | The blank filter succeeds exactly when every name is a string, and never lengthens the list. |
| Denormalise.KeepNonBlankCons | functions/index.js:202 | A string in front is kept exactly when it is not blank. |
| Denormalise.KeepNonBlankSpec | functions/index.js:202 | The kept names are an order-preserving subsequence of the input, left untrimmed. Every kept name is non-blank, and every non-blank name is kept as often as it occurs. |
| Denormalise.DeriveNamesOutcome | functions/index.js:199-206 | The derivation fails exactly when the list is truthy but not an array, or has a null element or a non-string name. It is `[]` for a falsy list and is never longer than the list. |
| Denormalise.DeriveNames | functions/index.js:199-206 | A failed derivation is a TypeError. A truthy list that is not an array fails, and a derived list is never longer than its source list. |
| Denormalise.IngredientNameKept | functions/index.js:200-202 | An ingredient with a non-blank `ingredient.ingredientName` contributes that name. |
| Denormalise.TagScenario | functions/index.js:205-206 | Tags " vegan ", missing, "  " and "quick" give [" vegan ", "quick"]. |
| Denormalise.TagScenarioMapped | functions/index.js:206 | A missing tag name maps to "". |
| Denormalise.TagScenarioFiltered | functions/index.js:206 | Blank names are dropped and the rest keep their order. |
| Denormalise.StrArr | functions/index.js:213-214 | The stored name arrays hold the names in order. |
| Denormalise.PreprocessDeletedWritesNothing | functions/index.js:196 | A deleted recipe causes no write. |
| Denormalise.PreprocessWrites | functions/index.js:209-224 | The recipe keeps its fields and gets the derived names plus an `averageRating` that is 0 when falsy. Users change only for a truthy `authorId`, and no other recipe changes. |
| Denormalise.PreprocessFields | functions/index.js:199-218 | The derived fields build exactly when both name derivations succeed. They are `ingredientNames`, `tagNames` and an `averageRating` that is truthy or 0. |
| Denormalise.PreprocessStep | functions/index.js:189-225 | A deleted recipe or a failed derivation writes nothing. Otherwise the recipe exists afterwards, and users change only for a truthy `authorId`. |
| Denormalise.PreprocessFieldsSettle | functions/index.js:199-218 | Deriving again from the merged document yields the same fields. |
| Denormalise.PreprocessSettles | functions/index.js:189-225 | The trigger's own merge re-fires it, and that second run leaves the store as the first run left it. |
| Denormalise.PreprocessRecipe | functions/index.js:189-225 | The trigger's effect on recipes and users is the step function's; ratings and recommendations are unchanged. |
| Recommendations.View | functions/index.js:129 | `{ id: doc.id, ...doc.data() }` keeps every field and sets `id`, unless the data already has one. |
| Recommendations.Views | functions/index.js:129 | Every fetched document is turned into its view, in order. |
| Recommendations.Iterate | functions/index.js:149 | `for…of` works on arrays and strings and throws on anything else. |
| Recommendations.Includes | functions/index.js:150 | `includes` on an array is true exactly when some element is the same value. |
| Recommendations.UserListSpec | functions/index.js:147-149 | A user list `user.x \|\| []` (`Recommendations.UserList`) is [] when falsy and the items of an array. Any other truthy value that is not a string throws in `for…of`. |
| Recommendations.MapField | functions/index.js:164 | `map((i) => i.recipeId)` throws exactly on an undefined or null element, and otherwise reads the field of each element. |
| Recommendations.FlatMapField | functions/index.js:170 | `flatMap((c) => c.recipes)` throws exactly on an undefined or null element. |
| Recommendations.FlatMapFieldSpec | functions/index.js:170 | `flatMap` throws exactly when `map` does, and otherwise gives the one-level flattening (`Recommendations.Flat`) of the mapped values: an array value is spliced in, any other value kept as one element. |
| Recommendations.FlatAppend | functions/index.js:170 | Flattening a concatenation gives the concatenation of the flattenings. |
| Recommendations.FlatOfScalars | functions/index.js:170 | Flattening leaves a list without arrays unchanged. |
| Recommendations.LinkedList | functions/index.js:164-176 | A missing sub-collection list reads as `[]`. |
| Recommendations.LinkedListSpec | functions/index.js:164-176 | A null list also reads as `[]`, and any other non-array value throws. On an array of entries the list throws exactly on an undefined or null entry; otherwise it holds each entry's field in order, or for `collections` the flattening of those fields. |
| Recommendations.CountMatches | functions/index.js:149-160 | At most one match is counted per wanted entry, and none for an empty list. |
| Recommendations.CountMatchesCounts | functions/index.js:149-160 | On array or string tags, the count is exactly the number of positions of the wanted list whose value `includes` finds (`Recommendations.Hits`). On other tags a non-empty list throws. |
| Recommendations.HitsLast | functions/index.js:149-153 | A list has the hits of all but its last value, plus one when the last value is found. |
| Recommendations.LinkBonus | functions/index.js:163-179 | The viewed, collected and followed bonuses add at most 2+3+3 points. |
| Recommendations.LinkBonusSpec | functions/index.js:163-179 | The bonus is computed exactly when the three linked lists are. It is 2 when the recipe id is among the viewed ids, plus 3 when it is among the collected ids, plus 3 when the author id is among the followed uids. |
| Recommendations.LinkBonusFrame | functions/index.js:163-179 | The bonus depends on the user only through `subcollections`. |
| Recommendations.TagScore | functions/index.js:146-161 | The preference and cuisine points lie between 0 and 5 per listed preference and cuisine. |
| Recommendations.TagScoreParts | functions/index.js:146-161 | The tag points are the preference points plus the cuisine points, and throw when either does. |
| Recommendations.ListPoints | functions/index.js:147-153 | One list contributes between 0 and 5 points per entry. |
| Recommendations.ListPointsCounts | functions/index.js:149-153 | One list contributes exactly 5 points per position whose value the tags include. |
| Recommendations.ListPointsFrame | functions/index.js:147-160 | A list's points depend on the user only through that list. |
| Recommendations.ListPointsAppend | functions/index.js:149-153 | Appending a value to a list adds 5 points when the tags include it and 0 when they do not. It throws when the tags cannot be searched. |
| Recommendations.PreferencesAppend | functions/index.js:146-153 | Appending a dietary preference adds its 5 or 0 to the tag points and leaves the cuisine points alone. |
| Recommendations.CuisinesAppend | functions/index.js:155-161 | Appending a favourite cuisine adds its 5 or 0 to the tag points and leaves the preference points alone. |
| Recommendations.AddMatches | functions/index.js:149-153 | The loop adds 5 per wanted entry found in the tags, or throws as `includes` does. |
| Recommendations.ComputeRecipeScore | functions/index.js:143-187 | The loops compute the score the specification function defines. |
| Recommendations.AddTagScore | functions/index.js:146-161 | Both tag loops together compute the tag score. |
| Recommendations.AddListPoints | functions/index.js:156-161 | One tag loop adds that list's points or propagates the error. |
| Recommendations.ScoreBounds | functions/index.js:143-187 | 0 ≤ score ≤ 5·|dietaryPreferences| + 5·|favoriteCuisines| + 13. |
| Recommendations.ScoreOfBlankUser | functions/index.js:182-184 | Any user without dietaryPreferences, favoriteCuisines and subcollections scores a recipe 5 when it is popular and 0 otherwise. |
| Recommendations.EntryWeight | functions/index.js:146-161 | Appending a value to the dietary preferences or to the favourite cuisines adds exactly 5 to the score when the recipe's tagNames include it, and 0 when they do not. The scoring throws when the tags cannot be searched. |
| Recommendations.Score | functions/index.js:143-187 | A computed score is never negative. |
| Recommendations.ScoreIsWeightedSum | functions/index.js:143-187 | A computed score is 5 per found preference position, plus 5 per found cuisine position, plus the link bonus, plus 5 for a popular recipe. |
| Recommendations.ScoreSteps | functions/index.js:143-187 | The score throws what the tag loops throw, then what the link lists throw, and otherwise sums tag points, bonus and popularity. |
| Recommendations.ScoreOfParts | functions/index.js:143-187 | Two users with the same sub-collections score a recipe alike up to the difference of their tag points. |
| Recommendations.PopularSpec | functions/index.js:182-184 | For numeric fields, the popularity bonus (`Recommendations.Popular`) applies exactly when `averageRating` ≥ 4 and `ratingsCount` > 10. It never applies when either field is missing. |
| Recommendations.Insert | functions/index.js:65 | An insertion step adds exactly one element. |
| Recommendations.SortDesc | functions/index.js:65 | Sorting is a permutation. |
| Recommendations.InsertSorted | functions/index.js:65 | Inserting into a descending list keeps it descending. |
| Recommendations.SortDescSorted | functions/index.js:65 | The sort yields non-increasing scores. |
| Recommendations.TopTen | functions/index.js:68 | The slice keeps min(n, 10) recommendations. |
| Recommendations.TopTenSpec | functions/index.js:65-68 | At most 10 are kept, in non-increasing order. They are drawn from the scored recipes, and no recipe left out scores above one kept. |
| Recommendations.SortedSplit | functions/index.js:68 | A prefix of a sorted list is sorted and outranks the rest. |
| Recommendations.Page | functions/index.js:118-123 | A page is the next at most `limit` documents after the cursor. |
| Recommendations.FetchCollectionWithPagination | functions/index.js:109-138 | The concatenated pages are the whole ordered collection, fetched in ⌈N/P⌉+1 queries. |
| Recommendations.PageCount | functions/index.js:128-135 | Each non-empty page advances the fetch count by one page of the total. |
| Recommendations.ScoreAll | functions/index.js:58-62 | There is one scored entry per recipe. |
| Recommendations.ScoreAllSucceeds | functions/index.js:58-62 | Scoring succeeds exactly when every recipe scores. |
| Recommendations.ScoreAllWhenEachScores | functions/index.js:58-62 | When every recipe scores, the whole scoring succeeds. |
| Recommendations.ScoreAllEntries | functions/index.js:58-62 | After successful scoring, entry i holds recipe i's id and its score. |
| Recommendations.ScoreAllNext | functions/index.js:58-62 | One more loop step either fails with that recipe's error or appends its id and score. |
| Recommendations.ScoreRecipes | functions/index.js:58-62 | The scoring loop computes the specification function. |
| Recommendations.ScoreAllErrorStays | functions/index.js:58-62 | A failure on an early recipe aborts the whole scoring. |
| Recommendations.RecDocs | functions/index.js:86-94 | The new batch builds exactly when every kept recipe id is a usable document id. |
| Recommendations.RecDocsSpec | functions/index.js:86-94 | The batch's document ids are exactly the kept recipe ids. Every kept recipe is written, and each document holds the score of the last kept entry with that id. |
| Recommendations.RecDocsFrom | functions/index.js:86-94 | At most one document per kept recommendation, each named by and holding the score of a kept entry. |
| Recommendations.RecDocsCovers | functions/index.js:86-94 | Every kept recommendation is written under its recipe id. |
| Recommendations.RecDocsLastWins | functions/index.js:86-94 | A later `batch.set` on the same id overwrites an earlier one: the document holds the last entry's score. |
| Recommendations.WrongKeyWritesNothing | functions/index.js:38-41 | A wrong API key gets 403 "Unauthorized" and changes no recommendations. |
| Recommendations.Authorized | functions/index.js:38-41 | The key checked is the query key when truthy, else the header key. It passes exactly when it is the same value as the configured key (`Recommendations.SameValue`, `===` on primitives). An object or array key never passes. |
| Recommendations.UserTurnReplaces | functions/index.js:54-95 | After a completed turn, the user's recommendation ids are exactly the top-ten recipe ids (at most 10). Each holds the score of the last top-ten entry with that id, which is a recipe's score. Old ones are gone and other users are unchanged. |
| Recommendations.UserTurnSpec | functions/index.js:54-95 | A user's turn (`Recommendations.UserTurn`) completes only with a usable user id and successful scoring. A scoring or id failure stops the run with no write. Only that user's recommendations can change. |
| Recommendations.AllTurnsIds | functions/index.js:54-96 | When the loop over users (`Recommendations.AllTurns`) completes, every user had a usable document id. |
| Recommendations.ReplaceRecommendations | functions/index.js:76-95 | The user's old recommendations are deleted. The new batch is written when it builds; otherwise the user is left with none. |
| Recommendations.BatchFromScores | functions/index.js:58-94 | Every batch entry is the id and score of one of the recipes. |
| Recommendations.FailedWriteClears | functions/index.js:79-95 | A failure after the delete batch leaves the user with no recommendations. |
| Recommendations.RecommendForUser | functions/index.js:54-95 | The per-user step on the store is the turn function. |
| Recommendations.BuildBatch | functions/index.js:86-94 | The batch-building loop computes the batch function. |
| Recommendations.RecDocsErrorStays | functions/index.js:87-88 | A bad recipe id anywhere makes the whole batch fail. |
| Recommendations.CalculateWeeklyRecommendations | functions/index.js:34-104 | The handler's reply and recommendations are the request function's: 403 on a wrong key, 200 when every user completes, 500 at the first failure. |
| Recommendations.Weekly | functions/index.js:34-104 | The request function replies 403 exactly when the key is wrong, and then writes nothing. Otherwise it replies 200 or 500. |
| SearchIndex.NumberValue | functions/recipesSync.js:15 | A JS number is stored as itself, and NaN as null. |
| SearchIndex.TextOrEmpty | functions/recipesSync.js:9 | `x \|\| ''` keeps a truthy value and otherwise gives ''. It is never null or undefined. |
| SearchIndex.ArrayOrEmpty | functions/recipesSync.js:11 | `Array.isArray(x) ? x : []` is always an array, and the source itself when it is one. |
| SearchIndex.CountValue | functions/recipesSync.js:15 | `Number(x \|\| 0)` is 0 for a falsy field and the number for a number. |
| SearchIndex.RatingValue | functions/recipesSync.js:17 | A numeric `averageRating` passes through; anything else becomes 0. |
| SearchIndex.RecordIds | functions/recipesSync.js:55-57 | The import's ids are exactly the ids of its records. |
| SearchIndex.UpsertAll | functions/recipesSync.js:60-63 | An upsert import keeps every existing key and holds every imported id. |
| SearchIndex.UpsertAllKeys | functions/recipesSync.js:60-63 | After an upsert import the index holds its old keys plus the imported ids. |
| SearchIndex.RecordIdsSnoc | functions/recipesSync.js:60-63 | One more record adds exactly its id. |
| SearchIndex.UpsertAllOthers | functions/recipesSync.js:60-63 | An entry the import does not name is unchanged. |
| SearchIndex.UpsertAllLast | functions/recipesSync.js:60-63 | An entry ends as its last imported projection. |
| SearchIndex.UpsertAllDistinct | functions/recipesSync.js:60-63 | With distinct ids, every imported entry ends as its projection. |
| SearchIndex.Index.Delete | functions/recipesSync.js:40 | Deleting removes exactly that entry, or fails with NotFound and changes nothing when it is absent. |
| SearchIndex.Index.Upsert | functions/recipesSync.js:47 | An upsert replaces or creates exactly that entry. |
| SearchIndex.Index.Import | functions/recipesSync.js:60-63 | An accepted import upserts every record in order. A rejected one fails. |
| RecipesSync.GroupsDisjoint | functions/recipesSync.js:7-26 | Each projection key falls in exactly one field rule. |
| RecipesSync.ProjectionField | functions/recipesSync.js:8-24 | `id` is the given id. Text fields default to ''; array fields are the source or `[]`; counts are `Number(x \|\| 0)`; `averageRating` is a number or 0. |
| RecipesSync.Embeddings | functions/recipesSync.js:25 | `embeddings.map(Number)` keeps the length, and each element is a number (kept when it already was one) or NaN. |
| RecipesSync.SanitizeRecipe | functions/recipesSync.js:6-27 | The projection has the fixed keys plus `embeddings` exactly when the source has an array there, with each field given by its rule. |
| RecipesSync.SanitizeRecipeFields | functions/recipesSync.js:8-24 | Each named projection field has the value its rule gives, so the id is preserved and missing counts are 0. |
| RecipesSync.BaseProjection | functions/recipesSync.js:7-24 | The fixed part of the projection has exactly the fixed keys. |
| RecipesSync.Projections | functions/recipesSync.js:55-57 | The backfill builds one projection per recipe, in order. |
| RecipesSync.ProjectionIds | functions/recipesSync.js:55-57 | The import's ids are exactly the recipes' ids. |
| RecipesSync.BackfillMirrors | functions/recipesSync.js:50-70 | After an accepted backfill, every recipe's entry is its projection, the index has its old keys plus the recipe ids, and other entries are unchanged. |
| RecipesSync.IndexRecipeOnWrite | functions/recipesSync.js:29-48 | A deletion removes exactly the recipe's entry, failing when it is absent. Any other write replaces that entry with the projection. |
| RecipesSync.BackfillRecipes | functions/recipesSync.js:50-70 | An accepted import upserts every projection and replies "Backfilled recipes!". A rejected import replies 500 "Backfill failed". |
| UsersSync.GroupsDisjoint | functions/usersSync.js:7-22 | Each projection key falls in exactly one field rule. |
| UsersSync.ProjectionKeyCount | functions/usersSync.js:7-22 | The projection always has 14 keys. |
| UsersSync.Seconds | functions/usersSync.js:20-21 | `Math.floor(Number(x) / 1000) \|\| 0` is a whole number: the floor of x/1000, and 0 when x is not a number. |
| UsersSync.SecondsOfMillis | functions/usersSync.js:20-21 | A non-negative integer number of milliseconds gives ms div 1000 seconds. |
| UsersSync.ProjectionField | functions/usersSync.js:8-21 | `id` is the given id. Text fields default to ''; lists are the source or `[]`; counts are `Number(x \|\| 0)`; times are in seconds; `averageRating` is a number or 0. |
| UsersSync.SanitizeUser | functions/usersSync.js:6-23 | The projection has exactly the 14 keys, each given by its rule. |
| UsersSync.SanitizeUserFields | functions/usersSync.js:8-21 | Each named projection field has the value its rule gives. |
| UsersSync.Projections | functions/usersSync.js:51 | The backfill builds one projection per user, in order. |
| UsersSync.ProjectionIds | functions/usersSync.js:51 | The import's ids are exactly the users' ids. |
| UsersSync.BackfillMirrors | functions/usersSync.js:46-64 | After an accepted backfill, every user's entry is its projection, the index has its old keys plus the user ids, and other entries are unchanged. |
| UsersSync.IndexUserOnWrite | functions/usersSync.js:25-44 | A deletion removes exactly the user's entry, failing when it is absent. Any other write replaces that entry with the projection. |
| UsersSync.BackfillUsers | functions/usersSync.js:46-64 | An accepted import upserts every projection and replies "Backfilled users!". A rejected import replies 500 "Backfill failed". |
| BackfillTs.NameFields | functions/backfillTS.js:30-36 | The recipe pass merges exactly `ingredientNames` and `tagNames`. |
| BackfillTs.NameFieldsMatchTrigger | functions/backfillTS.js:21-28 | The backfill derives the same names as the live trigger, and fails exactly when the trigger does. |
| BackfillTs.RecipePass | functions/backfillTS.js:15-38 | The recipe pass keeps every existing document and adds at most one per snapshot recipe. |
| BackfillTs.RecipePassAllDerived | functions/backfillTS.js:17-38 | A completed recipe pass derived names for every recipe. |
| BackfillTs.RecipePassOthers | functions/backfillTS.js:17-38 | The recipe pass leaves any document outside the snapshot unchanged. |
| BackfillTs.RecipePassWritten | functions/backfillTS.js:17-38 | Each recipe ends as its old body plus its two derived name fields. |
| BackfillTs.RecipePassSpec | functions/backfillTS.js:15-40 | A completed recipe pass writes each recipe's derived names and nothing else. |
| BackfillTs.StatsWrites | functions/backfillTS.js:46-75 | Every user in the snapshot gets one write of its recipe count and average. |
| BackfillTs.Authored | functions/backfillTS.js:49-52 | The authored query returns exactly the recipes whose `authorId` is the user. |
| BackfillTs.UserPass | functions/backfillTS.js:45-77 | The user pass removes no document and adds at most one per snapshot user. |
| BackfillTs.UserPassStep | functions/backfillTS.js:46-75 | One loop step merges that user's stats, computed from the recipes it authored. |
| BackfillTs.UserPassSpec | functions/backfillTS.js:45-77 | Every user, including one with no recipes, ends with the merged stats of the recipes it authored. Other documents are unchanged. |
| BackfillTs.BackfillWritesEveryDocument | functions/backfillTS.js:10-80 | The user stats are computed from the recipes as the recipe pass left them. Every recipe and every user is written. |
| BackfillTs.UserPassMatchesTrigger | functions/backfillTS.js:54-75 | For the same recipes, a user's backfill write equals `updateUserRecipeStats`'s write (functions/index.js:232-262). |
| BackfillTs.RecipeCountIsAuthored | functions/backfillTS.js:66 | `recipeCount` is the number of recipes whose `authorId` is the user. |
| BackfillTs.RecipeNames | functions/backfillTS.js:15-40 | The recipe loop's effect on recipes is the pass function's. |
| BackfillTs.UserStats | functions/backfillTS.js:45-77 | The user loop's effect on users is the pass function's. |
| BackfillTs.BackfillData | functions/backfillTS.js:10-80 | Both passes run in order: recipes first, then users, and users only after the recipe pass completes. |
| UnitsServings.ServingsDefault | functions/backfillUnitsAndServings.js:38 | The default servings value is truthy or 1, never null or undefined. |
| UnitsServings.RepairIngredient | functions/backfillUnitsAndServings.js:30-40 | Repair throws TypeError exactly on an undefined or null ingredient, or on a truthy `unit` that is not a string (`unit.trim` is not a function). A primitive ingredient is left unchanged. |
| UnitsServings.RepairIngredientFields | functions/backfillUnitsAndServings.js:32-39 | A blank unit becomes "g" and any other is kept. Missing servings get the default, an existing value (0 included) is kept, and no other field changes. |
| UnitsServings.RepairedIsComplete | functions/backfillUnitsAndServings.js:32-39 | After repair, an ingredient has a non-blank unit and non-null servings. |
| UnitsServings.RepairIngredientIdempotent | functions/backfillUnitsAndServings.js:32-39 | Repairing a repaired ingredient changes nothing. |
| UnitsServings.RepairFrom | functions/backfillUnitsAndServings.js:30-45 | The list keeps its length. |
| UnitsServings.RepairFromSpec | functions/backfillUnitsAndServings.js:30-45 | The list repair succeeds exactly when every ingredient repairs: none is undefined or null, and none has a truthy `unit` that is not a string. Each element is then that ingredient's repair, in order. |
| UnitsServings.RepairFromIdempotent | functions/backfillUnitsAndServings.js:30-45 | Repairing a repaired list again changes nothing. |
| UnitsServings.RepairStep | functions/backfillUnitsAndServings.js:30 | One loop step appends one repaired ingredient. |
| UnitsServings.RepairIngredients | functions/backfillUnitsAndServings.js:30-45 | The in-place loop over the ingredient array leaves it as the repair function says, or stops at the first failure. |
| UnitsServings.RecipeWrites | functions/backfillUnitsAndServings.js:25-45 | A recipe adds updates unless its `ingredients` is not an array or holds an ingredient whose repair throws: an undefined or null one, or one with a truthy `unit` that is not a string. It writes at most the repaired list. |
| UnitsServings.RecipeWritesSettle | functions/backfillUnitsAndServings.js:25-45 | A second run over a repaired recipe sends the same update, and applying it again changes nothing. |
| UnitsServings.SettledAgain | functions/backfillUnitsAndServings.js:30-44 | A repaired recipe sends the same update again, and repairing it twice is repairing it once. |
| UnitsServings.SettleNext | functions/backfillUnitsAndServings.js:42-44 | Applying one recipe's update after the earlier ones repairs that recipe as well. |
| UnitsServings.BatchPrefixSettles | functions/backfillUnitsAndServings.js:24-49 | Committing the updates of the first n recipes repairs exactly those recipes and leaves the rest as they were. |
| UnitsServings.BatchOfSettled | functions/backfillUnitsAndServings.js:24-46 | On the repaired recipes the backfill builds the same batch as before. |
| UnitsServings.RunSettles | functions/backfillUnitsAndServings.js:12-55 | Running the backfill again on the store a committed run left builds the same batch, and committing it leaves the recipes unchanged. |
| UnitsServings.BatchMeansEveryRecipeRepaired | functions/backfillUnitsAndServings.js:24-46 | A batch that builds repaired every recipe. |
| UnitsServings.IngredientBatch | functions/backfillUnitsAndServings.js:24-46 | The batch builds when every recipe's updates build, and holds at most one update per recipe. |
| UnitsServings.BackfillIngredients | functions/backfillUnitsAndServings.js:12-55 | An empty collection writes nothing. A failure anywhere commits nothing. Otherwise the committed batch leaves every recipe's ingredients repaired. |
| UnitsServings.BackfillEnd | functions/backfillUnitsAndServings.js:12-55 | The run reports no recipes exactly for an empty collection. It commits exactly when the collection is non-empty, every recipe's updates build and the commit is accepted. |
| UnitsServings.BatchErrorStays | functions/backfillUnitsAndServings.js:25-46 | A failing recipe aborts the whole batch. |
| Embeddings.ListText | functions/backfillEmbeddings.js:55-56 | `(x \|\| []).join(", ")` is "" for a falsy field, the join for an array, and throws for anything else. |
| Embeddings.EmbeddingText | functions/backfillEmbeddings.js:55-61 | Building the text throws (TypeError) exactly when a name list does. |
| Embeddings.ArrayJoinStrings | functions/backfillEmbeddings.js:55-56 | Joining an array of strings joins the strings. |
| Embeddings.EmbeddingTextOfNames | functions/backfillEmbeddings.js:55-61 | The text is title, joined ingredient names and joined tag names, separated by single spaces. |
| Embeddings.EmbeddingTextOfNothing | functions/backfillEmbeddings.js:57-61 | With no title and no lists, the text is two spaces. |
| Embeddings.Try | functions/backfillEmbeddings.js:48-79 | A recipe is skipped exactly when its `embeddings` field is truthy. |
| Embeddings.RequestOf | functions/backfillEmbeddings.js:66 | A recipe makes at most one request, and makes one exactly when it is not skipped and its text builds. |
| Embeddings.WriteOf | functions/backfillEmbeddings.js:69-74 | A recipe gets at most one write, exactly when embedding succeeded, and it merges only `embeddings`. |
| Embeddings.Requests | functions/backfillEmbeddings.js:44-80 | There is at most one request per recipe. |
| Embeddings.Writes | functions/backfillEmbeddings.js:44-80 | There is at most one write per recipe. |
| Embeddings.RequestsAppend | functions/backfillEmbeddings.js:44-80 | The requests of consecutive recipes concatenate. |
| Embeddings.WritesAppend | functions/backfillEmbeddings.js:44-80 | The writes of consecutive recipes concatenate. |
| Embeddings.OneRecipe | functions/backfillEmbeddings.js:44-80 | One recipe's pass is its request and its write. |
| Embeddings.NothingWrittenFor | functions/backfillEmbeddings.js:48-51 | A skipped or failed recipe contributes nothing, and the loop continues. |
| Embeddings.WritesNameNoOther | functions/backfillEmbeddings.js:69-74 | Writes name only recipes of the pass. |
| Embeddings.WritesUnique | functions/backfillEmbeddings.js:69-74 | No recipe is written twice. |
| Embeddings.WrittenEntry | functions/backfillEmbeddings.js:69-74 | Each recipe's write is among the pass's writes. |
| Embeddings.UnwrittenId | functions/backfillEmbeddings.js:77-79 | A recipe that failed or was skipped is not written. |
| Embeddings.BackfillWritten | functions/backfillEmbeddings.js:66-74 | An embedded recipe ends with `embeddings` set to the service's vector and its other fields kept. |
| Embeddings.BackfillUntouched | functions/backfillEmbeddings.js:48-51 | A skipped or failed recipe is left unchanged. |
| Embeddings.PassStep | functions/backfillEmbeddings.js:44 | One loop step extends the requests and writes by that recipe's. |
| Embeddings.EmbedRecipe | functions/backfillEmbeddings.js:45-79 | The loop body sends the recipe's request and applies its write. |
| Embeddings.BackfillEmbeddings | functions/backfillEmbeddings.js:42-80 | The loop sends exactly the pass's requests and applies exactly its writes. |
| PrintUrl.IndexOf | functions/extractRecipeFromWeb.js:30 | The search finds the first occurrence of a pattern, or reports that there is none. |
| PrintUrl.ReplaceFirst | functions/extractRecipeFromWeb.js:30 | `replace` without a match is the identity; with one, it swaps pattern for replacement. |
| PrintUrl.AllrecipesPrint | functions/extractRecipeFromWeb.js:14-20 | A URL with "?print" is unchanged. Otherwise "&print" is appended when it has '?', and "?print" when it does not. The input is always a prefix. |
| PrintUrl.AllrecipesIdempotent | functions/extractRecipeFromWeb.js:16-17 | On a URL without '?', applying the transform twice equals applying it once. |
| PrintUrl.AppendCreatesNoQueryPrint | functions/extractRecipeFromWeb.js:18 | Appending "&print" creates no new "?print". |
| PrintUrl.AllrecipesAppendsAgain | functions/extractRecipeFromWeb.js:16-18 | On a URL with a query but no "?print", a second application appends "&print" again. |
| PrintUrl.ChefkochPrint | functions/extractRecipeFromWeb.js:28-31 | When "/rezepte/drucken/" is absent, the first "/rezepte/" becomes "/rezepte/drucken/"; otherwise the URL is unchanged. |
| PrintUrl.ChefkochIdempotent | functions/extractRecipeFromWeb.js:28-31 | Applying the chefkoch transform twice equals applying it once. |
| PrintUrl.GetDomain | functions/extractRecipeFromWeb.js:214-222 | The domain is null exactly when parsing failed. Otherwise it is the hostname with one leading "www." removed. |
| PrintUrl.GetPrintOrFallbackUrl | functions/extractRecipeFromWeb.js:228-234 | No domain, or an unknown one, returns the URL unchanged. A known domain applies its table entry (`PrintUrl.Apply`). |
| PrintUrl.KeepUrlDomains | functions/extractRecipeFromWeb.js:33-58 | Five domains map every URL to itself: gutekueche.at, einfachbacken.de, ichkoche.at, oetker.at and thekitchn.com. |
| PrintUrl.WwwIsIgnored | functions/extractRecipeFromWeb.js:217 | A "www." host is handled as the bare host. |
| PrintUrl.TargetIsPrintOrFallback | functions/extractRecipeFromWeb.js:240-244 | The target URL (`PrintUrl.TargetUrl`) equals `getPrintOrFallbackUrl(url)`, because each extractor's `printUrl` is its table entry (lines 69, 90, 104, 122, 138, 154, 166). |
| PrintUrl.FirstContainer | functions/extractRecipeFromWeb.js:198-204 | The first selector whose trimmed text is non-empty is chosen, or none when no selector qualifies. |
| PrintUrl.FallbackExtract | functions/extractRecipeFromWeb.js:188-209 | With no usable container the result is the trimmed body text. Otherwise it is the trimmed text of the first usable selector, whichever position that selector has. |
| AppleSubscription.AppleWebhook | functions/appleSubscription.js:5-29 | A missing body or `data` gives 400 "Invalid data", and a missing token 400 "Invalid user data". The reply is always one of the four, and any non-200 reply writes nothing. |
| AppleSubscription.AccountToken | functions/appleSubscription.js:13 | A body whose `data` is not an object yields an undefined token. |
| AppleSubscription.WebhookSuccess | functions/appleSubscription.js:19-25 | A 200 reply means the token named an existing user. That user's `subscribed` becomes whether the type is SUBSCRIBED or DID_RENEW (`AppleSubscription.Subscribed`); nothing else changes. |
| AppleSubscription.WebhookServerError | functions/appleSubscription.js:22-29 | Past validation, the reply is 500 exactly when the token is not a usable id or names no user. |
| GoogleSubscription.DateValue | functions/googleSubscription.js:42 | A valid `Date` lies within ±8.64e15 ms. |
| GoogleSubscription.ExpiresAfterDigits | functions/googleSubscription.js:42-43 | The expiry test (`GoogleSubscription.ExpiresAfter`): a digit-string expiry in range is after now exactly when its value exceeds now. |
| GoogleSubscription.MissingExpiryIsPast | functions/googleSubscription.js:42-43 | A missing expiry is an invalid date, so it never counts as in the future. |
| GoogleSubscription.IsActive | functions/googleSubscription.js:43 | Active requires `paymentState === 1`. With it, a truthy `autoRenewing` is active, and otherwise active means expiry after now. |
| GoogleSubscription.CheckUser | functions/googleSubscription.js:23-52 | A user is skipped exactly when it has no `receiptToken`. |
| GoogleSubscription.WriteOf | functions/googleSubscription.js:45-47 | A user gets at most one write, exactly when the check succeeded, and it updates only `subscribed`. |
| GoogleSubscription.Writes | functions/googleSubscription.js:22-53 | There is at most one write per user. |
| GoogleSubscription.WritesAppend | functions/googleSubscription.js:22-53 | The writes of consecutive users concatenate. |
| GoogleSubscription.WritesNext | functions/googleSubscription.js:22-53 | One loop step appends that user's write. |
| GoogleSubscription.NothingWrittenFor | functions/googleSubscription.js:24 | A skipped or failed user contributes nothing, and the loop continues. |
| GoogleSubscription.WritesNameNoOther | functions/googleSubscription.js:45 | Writes name only users of the snapshot. |
| GoogleSubscription.WritesUnique | functions/googleSubscription.js:45 | No user is written twice. |
| GoogleSubscription.WrittenEntry | functions/googleSubscription.js:45-47 | Each checked user's write is among the loop's writes. |
| GoogleSubscription.UnwrittenId | functions/googleSubscription.js:50-52 | A skipped or failed user is not written. |
| GoogleSubscription.CheckedUserUpdated | functions/googleSubscription.js:42-47 | A checked user ends with `subscribed` = isActive and its other fields kept. |
| GoogleSubscription.UncheckedUserUntouched | functions/googleSubscription.js:23-24 | A skipped user, or one whose check threw, is left unchanged. |
| GoogleSubscription.CheckOneUser | functions/googleSubscription.js:23-52 | The loop body applies the user's write. |
| GoogleSubscription.CheckGoogleSubscriptions | functions/googleSubscription.js:19-55 | The loop applies exactly the writes of all checked users. |
| Notifications.RequestedTypes | functions/testNotifications.js:27-28 | There is at least one requested type, and an absent or empty argument means ["all"]. No type contains ',' or an upper-case letter. |
| Notifications.Canonical | functions/testNotifications.js:28 | A trimmed, lower-cased piece has no upper-case letter and only characters of the piece or lower-case letters. |
| Notifications.DefaultAll | functions/testNotifications.js:27-28 | The default argument "all" reads as the single type "all". |
| Notifications.CanonicalTrims | functions/testNotifications.js:28 | A canonical name has no white space at either end, and it is empty exactly when the piece is all white space. |
| Notifications.CanonicalPadded | functions/testNotifications.js:28 | A name padded with white space reads as the lower-cased name. |
| Notifications.RequestedTypesOfPaddedList | functions/testNotifications.js:27-28 | Names in any case, padded with white space and joined by commas, are read back in order as the lower-cased names. |
| Notifications.RequestedPaddedMixedCase | functions/testNotifications.js:27-28 | " New_Recipe " requests exactly "new_recipe". |
| Notifications.RequestedTypesOfList | functions/testNotifications.js:27-28 | A comma-joined list of trimmed lower-case names is parsed back to that list. |
| Notifications.CanonicalKeeps | functions/testNotifications.js:28 | An already trimmed lower-case name is unchanged. |
| Notifications.ParamsOf | functions/testNotifications.js:30-35 | With no argument after the types, every parameter is its default. Each of the token, recipeId, commentId, followerUid, fileName and commentAuthorName is its argument when that argument is given and non-empty, and its default otherwise. |
| Notifications.MessageFor | functions/testNotifications.js:38-99 | Exactly the five known types have a message. It carries the token and title, and its data's `type` and `click_action`. |
| Notifications.AllMessages | functions/testNotifications.js:105-106 | "all" gives the five messages in declaration order. |
| Notifications.KnownTypes | functions/testNotifications.js:107-115 | Only known types are kept, never more than requested. |
| Notifications.Known | functions/testNotifications.js:107-115 | At most one message per requested type, each for the given token and with the fixed title. |
| Notifications.Selected | functions/testNotifications.js:104-115 | Every selected message is for the given token and has the fixed title. |
| Notifications.SelectedAll | functions/testNotifications.js:105-106 | When "all" is requested, the selected types are the five notification types in declaration order. |
| Notifications.Types | functions/testNotifications.js:123 | Each message's type is read from its data. |
| Notifications.SelectedKnown | functions/testNotifications.js:107-115 | Without "all", the messages are those of the known requested types, in request order with duplicates kept, all for the given token. |
| Notifications.SelectMessages | functions/testNotifications.js:102-115 | The selection loop computes the selection function. |
| Notifications.ErrorsCount | functions/testNotifications.js:117-128 | There is one error per failed send. |
| Notifications.Errors | functions/testNotifications.js:117-128 | There are never more errors than messages, and none when every send is delivered. |
| Notifications.SummaryOf | functions/testNotifications.js:130-134 | The success line is chosen exactly when there are no errors. |
| Notifications.SuccessIffNoFailure | functions/testNotifications.js:117-134 | Success is reported exactly when no send failed. |
| Notifications.SendAll | functions/testNotifications.js:117-128 | Every message is sent once, in order, and the errors are collected without stopping. |
| Notifications.TestNotifications | functions/testNotifications.js:27-134 | The script sends the selection for its arguments and reports the summary of the collected errors. |
| HexColor.TrimLeading | ios/Runner/GradientView.swift:5 | The leading trim drops a prefix made only of white space, and the result does not start with white space. |
| HexColor.TrimTrailing | ios/Runner/GradientView.swift:5 | The trailing trim drops a suffix made only of white space, and the result does not end with white space. |
| HexColor.Trimmed | ios/Runner/GradientView.swift:5 | The trimmed string has white space at neither end, and an already trimmed string is unchanged. |
| HexColor.TrimLeadingPadded | ios/Runner/GradientView.swift:5 | The leading trim removes exactly a white-space prefix in front of a non-space character. |
| HexColor.TrimTrailingPadded | ios/Runner/GradientView.swift:5 | The trailing trim removes exactly a white-space suffix after a non-space character. |
| HexColor.TrimmedPadded | ios/Runner/GradientView.swift:5 | Trimming gives back exactly the text inside the white space: text with no white space at either end, padded with any white space on both sides, trims to itself. |
| HexColor.WithoutHash | ios/Runner/GradientView.swift:6 | Every '#' is removed and nothing else. |
| HexColor.WithoutHashSplice | ios/Runner/GradientView.swift:6 | Removing '#' works piecewise around each '#'. |
| HexColor.Sanitize | ios/Runner/GradientView.swift:5-6 | The sanitised string contains no '#' and only characters of the input. |
| HexColor.DigitValue | ios/Runner/GradientView.swift:9 | A hex digit is worth less than 16. |
| HexColor.HexValue | ios/Runner/GradientView.swift:9 | n hex digits are worth less than 16^n. |
| HexColor.HexPrefix | ios/Runner/GradientView.swift:9 | The scanned digits are the longest leading run of hex digits. |
| HexColor.ScannedDigits | ios/Runner/GradientView.swift:9 | The scanner reads only hex digits. |
| HexColor.ScanHex | ios/Runner/GradientView.swift:8-9 | The scanned value fits in UInt64. It is the digits' value, or the saturated maximum when that value is larger. |
| HexColor.ScanHexDigits | ios/Runner/GradientView.swift:8-9 | Up to 16 hex digits scan to their value. |
| HexColor.ScannedAllDigits | ios/Runner/GradientView.swift:9 | A string of hex digits is scanned whole. |
| HexColor.SixteenDigitsFit | ios/Runner/GradientView.swift:8 | 16 hex digits fit in UInt64. |
| HexColor.ChannelsOf | ios/Runner/GradientView.swift:11-13 | Each channel `(rgb & mask) >> shift` is in 0..255. |
| HexColor.ChannelsRecompose | ios/Runner/GradientView.swift:11-13 | For a 24-bit value, the three channels recompose to it. |
| HexColor.ChannelsOfBytes | ios/Runner/GradientView.swift:11-13 | Three bytes packed as RRGGBB give back those bytes. |
| HexColor.Component | ios/Runner/GradientView.swift:11-13 | A channel divided by 255 lies in [0, 1]; 0 gives 0 and 255 gives 1. |
| HexColor.FromHex | ios/Runner/GradientView.swift:4-16 | The initializer always succeeds, with alpha 1. |
| HexColor.SixDigits | ios/Runner/GradientView.swift:5-13 | "#RRGGBB" gives channels RR, GG and BB. |
| HexColor.SanitizeHashed | ios/Runner/GradientView.swift:5-6 | "#" followed by hex digits sanitises to the digits. |
| HexColor.SanitizePadded | ios/Runner/GradientView.swift:5-6 | White space around "#" and hex digits is cleaned away with the "#": " #1a8100\n" sanitises to "1a8100". |
| HexColor.FromHexPadded | ios/Runner/GradientView.swift:4-16 | A padded colour text gives the same colour as the bare "#" and digits. |
| HexColor.HexValueSix | ios/Runner/GradientView.swift:9 | Six hex digits are worth RR·65536 + GG·256 + BB. |
| HexColor.TopColorDefault | ios/Runner/GradientView.swift:22 | "#1a8100" is (26, 129, 0), opaque. |
| HexColor.BottomColorDefault | ios/Runner/GradientView.swift:28 | "#feb47b" is (254, 180, 123), opaque. |

## Left out

- I/O, logging and console text are not modelled. Notification text beyond the fixed titles, types and click action is also left out.
- Concurrency is not modelled. Each handler runs alone against the store; interleaved triggers and concurrent deletions are not captured.
- The Firestore client, Typesense client, Google Play Developer API, Firebase Cloud Messaging and embedding service are not modelled. Each is a parameter: a function for the services, a flag for whether an import is accepted. Transient failures of other calls are not modelled.
- `serverTimestamp()` in recommendation documents is not modelled. A recommendation is its recipe id and score.
- The clock is a parameter (`now`), as an integer number of milliseconds.
- Hostname parsing by the WHATWG URL Standard is an input (`Option<string>`, None when parsing throws).
- Js.StringToNumber: `Number()` of a string is characterised only for blank and plain decimal digit strings. Signs, decimals, exponents and hex literals are treated as NaN.
- Js.ParseInt: the contract characterises only digit strings. The function skips leading white space and one sign; `0x` radix prefixes are not modelled.
- Js.ToNumber: an object converts to NaN. A Firestore Timestamp is such an object. JavaScript's `Number` converts it through the text its `valueOf` returns (zero-padded seconds and nanoseconds), which the model does not reproduce. So `createdAt`, `updatedAt`, `created_time` and `last_active_time` holding Timestamps read as NaN here. The RecipesSync `createdAt` and `updatedAt` of such a recipe are then stored as null, and the UsersSync `created_time` and `last_active_time` become 0, where JavaScript derives a number from that text. An object in `averageRating` or `ratingsCount` compares false in the popularity test, as it does in JavaScript unless the object has a numeric `valueOf`. Array text that is signed or decimal also reads as NaN.
- Js.JoinText: a number that is not an integer is rendered as "", where JavaScript writes its shortest decimal form ("3.5"). This affects a non-integer `title` in Embeddings.EmbeddingText, and makes Recommendations.Includes on a string true for such a number, since every string contains "".
- Js.ToLowerAscii: `toLowerCase` is modelled on ASCII letters only.
- Ratings.AuthorTotals: a truthy `averageRating` or `ratingsCount` that is not a number counts as 0. JavaScript would coerce it with `*` and `+`. The same holds in BackfillTs.UserStats.
- Ratings.ComputeRecipeAggregate: rating values are integers; fractional ratings are not modelled.
- Store.DocId: an id containing '/' is rejected rather than treated as a nested path.
- PrintUrl.GetPrintOrFallbackUrl: inherited property names of `PRINT_URL_PATTERNS` ("constructor", "__proto__") are treated as unknown domains.
- Notifications.MessageFor: inherited property names of the notification mapping are treated as unknown types.
- SearchIndex.Index.Import: a rejected import may already have applied part of the batch, because Typesense throws when only some documents failed (functions/recipesSync.js:68, functions/usersSync.js:62 log `error.importResults`). The model treats a rejected import as applying none of it. The same holds for RecipesSync.BackfillRecipes and UsersSync.BackfillUsers.
- UnitsServings.RecipeWrites: the per-index field paths `ingredients.${index}` are modelled as one update of the whole repaired `ingredients` list.
- Recommendations.CalculateWeeklyRecommendations: the fetched users and recipes are parameters in query order, not derived from the store. The query `orderBy(created_time|createdAt).startAfter(lastVisible || 0)` (functions/index.js:114-122) drops documents that lack the field and documents whose value sorts at or before 0 (null, booleans, numbers ≤ 0). Such users get no recommendations and such recipes are never recommended; the model does not state this filter.
- Recommendations.TopTen: the order among equal scores is not stated; the contract gives order, bound, membership and rank.
- GoogleSubscription.CheckUser: the update uses the snapshot's user document. A user deleted between the read and the update is not captured.
- HexColor.IsWhiteSpace: the white-space set is Unicode White_Space, and trimming works on characters, not grapheme clusters.
- HexColor.ScanHex: `Scanner.scanHexInt64` is modelled as skipping leading white space and an optional "0x"/"0X" that a hex digit follows, then reading the hex-digit run. Overflow saturates at UInt64 maximum. This is an assumption about Foundation's scanner.
- HexColor.Component: CGFloat is modelled as an exact real.
- UIKit drawing (`layoutSubviews`, the `didSet` observers and the gradient layer) at ios/Runner/GradientView.swift:22-41 is not modelled; only the colour values are.
- `generateImage`, `analyzeCommentSentiment` and the other handlers of functions/index.js outside recipes, ratings and recommendations are not part of this model.
- The Puppeteer browser session and the per-site DOM extractors of functions/extractRecipeFromWeb.js are not modelled. `fallbackExtract` takes the selectors' texts as a map.
- One-off scripts are not part of this model: backfillNotifications.js, checkCollections.js, export.js, extractPDF.js and populateTagsCollection.js.
- Notifications.TestNotifications: the default token and ids are constants. The send function is indexed by attempt, so each send may succeed or fail independently.
