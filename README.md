# Content create/edit view glue, modelled in Dafny

This project models the decision logic of three classes of the repository-forms
package of eZ Platform:

- **ContentCreateViewBuilder** resolves a Language, a parent Location and a
  ContentType from the request parameters. Each comes from one of two accepted keys,
  in a fixed precedence. The builder then either returns a success view wrapping the
  response of the submitted form's action, or returns a create view carrying the
  resolved values and the form.
- **ContentEditViewFilter** listens for the "filter view builder parameters" event.
  On the edit-draft route only, it loads the draft and its content type, builds the
  content edit form and adds it to the parameter bag under `form`.
- **KeywordFormMapper** adds the `value` child to a keyword field's form. The child's
  label falls back from the main-language name to the first name. The mapper also
  declares the translation-domain default.

The collaborators are modelled as follows:
- The repository services are abstract functions that may fail with an opaque
  NotFound or Unauthorized.
- The action dispatcher is a function from the dispatch arguments to an optional
  response.
- The form factory is an abstract function that may fail, since it throws
  InvalidOptionsException for options it rejects.
- The update mapper and `handleRequest` are abstract functions.
- The parameters injector and the view configurator are recorded calls.

Some collaborator calls are recorded, in order, in a trace that the contracts
describe exactly:
- the builder's repository reads, its dispatch and `getResponse`, and the injector
  and configurator calls;
- the filter's two loads, the update mapper, the form factory and `handleRequest`.

Other collaborators are plain values or fields and are not traced:
- the form's `isValid`, `getClickedButton` and `getData` are fields of the form value;
- `createView` gives the form's view value;
- the keyword mapper's reads of the field definition and the form options are
  parameters; its builder chain (`createBuilder`, `create`, `setAutoInitialize(false)`,
  `getForm`) is modelled by the child value `ValueChild` builds, which `FieldForm.Add`
  puts into the field form's map of children.

## Layout

| file | module | what |
|---|---|---|
| common.dfy | Common | `Option`, `Result`, the repository's failures, the errors the core throws |
| domain.dfy | Domain | Language, Location, ContentType, Content, Form and Response as value records |
| php_array.dfy | PhpArray | PHP arrays as ordered lists: reading a key, assigning a key, `array_replace` |
| php_value.dfy | PhpValue | the bag's value union, `isset`, PHP truthiness, the `(int)` cast and its inverse |
| content_create_view_builder.dfy | CreateViewBuilder | the resolvers, `buildView`, `matches`, the create view |
| content_edit_view_filter.dfy | EditViewFilter | the event subscription, the guard, the edit form and the bag update |
| keyword_form_mapper.dfy | KeywordFormMapper | the label choice, the `value` child, `configureOptions` |

Both view files declare `strict_types=1`, and the model keeps the consequences:
- Passing a non-string to a `string` parameter is a `TypeError`. This covers
  `loadLanguage`, `loadContentType` and `resolveContentEditData`.
- A resolver that would return an object of the wrong class is also a `TypeError`.
- `buildView` reads `$parameters['form']` without a check. When that entry is not a
  form, the call to `isValid()` fails. The model reports this as
  `MethodCallFailed("isValid")`, after the three resolutions have run. This covers
  both a non-object and an object without that method.

The missing-parameter error is eZ's InvalidArgumentException. Its argument names are
`Language`, `ParentLocation` and `ContentType`, and its messages are the ones written
in the code.

The fallback label is the first name in the array's own order (`reset`).

The literal `ezpublish.view.builder_parameter_filter` stands for
`ViewEvents::FILTER_BUILDER_PARAMETERS`. It is an assumed value, and no contract
depends on what it is.

## Model

| member | source | states |
|---|---|---|
| `CreateViewBuilder.ContentCreateViewBuilder.Matches` | lib/Content/View/Builder/ContentCreateViewBuilder.php:59-62 | true exactly for the string `ez_content_edit:createWithoutDraftAction`, compared strictly |
| `CreateViewBuilder.FirstSetKey` | lib/Content/View/Builder/ContentCreateViewBuilder.php:169-236 | the precedence every resolver follows: the first accepted key whose value is set (present and not null) |
| `CreateViewBuilder.ResolveLanguage` | lib/Content/View/Builder/ContentCreateViewBuilder.php:169-186 | fails with the `Language` InvalidArgument exactly when neither `languageCode` nor `language` is set; a string under the first set key is the code loaded, and that load's answer is the result; a Language object under `language` is returned as it is, with no read, and only such an object gives a read-free success; a non-string `languageCode`, or a `language` that is neither string nor Language, is a TypeError with no read |
| `PhpValue.IsSet` | lib/Content/View/Builder/ContentCreateViewBuilder.php:171-228 | `isset($p[$key])`: the key is present and its value is not null |
| `CreateViewBuilder.NullCountsAsMissing` | lib/Content/View/Builder/ContentCreateViewBuilder.php:171-228 | for each resolver, a key bound to null resolves exactly as if the key were absent |
| `CreateViewBuilder.LanguageCodeTakesPrecedence` | lib/Content/View/Builder/ContentCreateViewBuilder.php:171-173 | a set string `languageCode` gives `loadLanguage(languageCode)`, with `language` ignored |
| `CreateViewBuilder.LanguageCodeAndObjectAgree` | lib/Content/View/Builder/ContentCreateViewBuilder.php:175-182 | without `languageCode`, a `language` code and the Language object it loads resolve to the same Language; only the code costs a read |
| `CreateViewBuilder.ResolveLocation` | lib/Content/View/Builder/ContentCreateViewBuilder.php:222-236 | fails with `ParentLocation` exactly when neither key is set; a set Location object under `parentLocation` is the result, with no read; any other set `parentLocation` is a TypeError; otherwise `parentLocationId`, cast with `(int)`, is the one id loaded, and that load's answer is the result |
| `CreateViewBuilder.LocationIdAsDecimalString` | lib/Content/View/Builder/ContentCreateViewBuilder.php:228-229 | a `parentLocationId` given as the decimal string of an id loads the same location as the integer id |
| `PhpValue.ToInt` | lib/Content/View/Builder/ContentCreateViewBuilder.php:229 | `(int)` on a bag value: an integer is kept, null is 0, a boolean is 1 or 0, a string is cast by StringToInt, an object is 1 |
| `PhpValue.StringToInt` | lib/Content/View/Builder/ContentCreateViewBuilder.php:229 | a string with no digit after its leading whitespace and optional sign casts to 0 |
| `PhpValue.IntCastOfPaddedDecimalString` | lib/Content/View/Builder/ContentCreateViewBuilder.php:229 | the decimal form of any 64-bit integer, after any leading whitespace and before any tail that does not start with a digit, casts back to that integer |
| `PhpValue.IntCastOfSignedDigits` | lib/Content/View/Builder/ContentCreateViewBuilder.php:229 | leading whitespace, an optional `+` or `-`, a run of digits (leading zeros allowed) and a tail that does not continue the run cast to the signed value of the digits, saturated at the 64-bit bounds |
| `PhpValue.IntCastOfDecimalString` | lib/Content/View/Builder/ContentCreateViewBuilder.php:229 | `(int)` applied to the decimal form of any 64-bit integer gives back that integer |
| `CreateViewBuilder.ResolveContentType` | lib/Content/View/Builder/ContentCreateViewBuilder.php:197-211 | fails with `ContentType` exactly when neither key is set; a set ContentType object under `contentType` is the result, with no read; any other set `contentType` is a TypeError; otherwise a string `contentTypeIdentifier` is the one identifier loaded, with prioritized languages `[language.languageCode]` of the language passed in, and that load's answer is the result; a non-string identifier is a TypeError with no read |
| `CreateViewBuilder.ResolutionDependsOnFirstSetKey` | lib/Content/View/Builder/ContentCreateViewBuilder.php:169-236 | two bags that agree on a resolver's first set key and its value resolve identically, result and reads alike |
| `CreateViewBuilder.ResolveContext` | lib/Content/View/Builder/ContentCreateViewBuilder.php:78-80 | language, then location, then content type (with the resolved language); the first failure is the result and stops later reads; the calls are repository reads only |
| `CreateViewBuilder.FirstFailureIsReported` | lib/Content/View/Builder/ContentCreateViewBuilder.php:78-80 | with several keys missing, the error reported is the first in the order language, location, content type; after a language failure no location and no content type is loaded |
| `CreateViewBuilder.FormOf` | lib/Content/View/Builder/ContentCreateViewBuilder.php:81 | the form is the `form` entry exactly when that entry holds a form object |
| `CreateViewBuilder.Dispatches` | lib/Content/View/Builder/ContentCreateViewBuilder.php:83 | the action is dispatched exactly for a valid form with a clicked button |
| `CreateViewBuilder.DispatchRequestFor` | lib/Content/View/Builder/ContentCreateViewBuilder.php:84-89 | the dispatch arguments: the form, its data, the clicked button's name and `{referrerLocation: location}` |
| `CreateViewBuilder.ViewParameters` | lib/Content/View/Builder/ContentCreateViewBuilder.php:101-106 | the four template parameters have pairwise distinct keys |
| `CreateViewBuilder.ContentCreateView.constructor` | lib/Content/View/Builder/ContentCreateViewBuilder.php:76 | a new view has the given template, nothing set and no parameters |
| `CreateViewBuilder.ContentCreateView.SetContentType` | lib/Content/View/Builder/ContentCreateViewBuilder.php:96 | sets the content type and nothing else |
| `CreateViewBuilder.ContentCreateView.SetLanguage` | lib/Content/View/Builder/ContentCreateViewBuilder.php:97 | sets the language and nothing else |
| `CreateViewBuilder.ContentCreateView.SetLocation` | lib/Content/View/Builder/ContentCreateViewBuilder.php:98 | sets the location and nothing else |
| `CreateViewBuilder.ContentCreateView.SetForm` | lib/Content/View/Builder/ContentCreateViewBuilder.php:99 | sets the form and nothing else |
| `CreateViewBuilder.ContentCreateView.AddParameters` | lib/Content/View/Builder/ContentCreateViewBuilder.php:101-106 | the view's parameters become `array_replace` of the old ones with the new ones; nothing else changes |
| `PhpArray.Replace` | lib/Content/View/Builder/ContentCreateViewBuilder.php:101-106 | `array_replace`: the keys of the result are those of the base and of the new entries together |
| `PhpArray.ReplaceDisjoint` | lib/Content/View/Builder/ContentCreateViewBuilder.php:101-106 | `array_replace` into an array that shares no key with the new entries appends them in their own order |
| `PhpArray.ReplaceLookup` | lib/Content/View/Builder/ContentCreateViewBuilder.php:101-106 | after `array_replace`, each new key reads as its new value |
| `CreateViewBuilder.ContentCreateViewBuilder.PopulateView` | lib/Content/View/Builder/ContentCreateViewBuilder.php:96-106 | the view carries the resolved content type, language, location and form; its parameters are exactly `contentType`, `language`, `parentLocation`, `form` (the form's view), in that order; its template is unchanged |
| `CreateViewBuilder.ContentCreateViewBuilder.BuildView` | lib/Content/View/Builder/ContentCreateViewBuilder.php:73-112 | a resolution failure propagates after exactly the reads made; a missing form fails at `isValid`; a valid form with a clicked button is dispatched, and only such a form is; a success view wraps exactly the response of that dispatch, with no injector or configurator call; otherwise a fresh create view with the default template and the resolved values, then an injector call with that same view and the request parameters, then a configurator call with that same view, and that view is the one returned |
| `EditViewFilter.SubscribedEvents` | lib/Content/View/Filter/ContentEditViewFilter.php:50-53 | exactly one event, FILTER_BUILDER_PARAMETERS, handled by `handleContentEditForm` |
| `EditViewFilter.ActsOn` | lib/Content/View/Filter/ContentEditViewFilter.php:64-66 | the handler acts exactly when `_controller` is the string `ez_content_edit:editVersionDraftAction` (strict `!==`) |
| `EditViewFilter.ParameterValue` | lib/Content/View/Filter/ContentEditViewFilter.php:64-73 | `ParameterBag::get`: the value under a key, or null when the key is missing |
| `EditViewFilter.Attribute` | lib/Content/View/Filter/ContentEditViewFilter.php:69-73 | a request attribute is read by the `ParameterBag::get` rule over the request's attributes |
| `EditViewFilter.ParameterBag.Get` | lib/Content/View/Filter/ContentEditViewFilter.php:64 | the event's parameter bag is read by the `ParameterBag::get` rule over its entries |
| `EditViewFilter.ContentEditViewFilter.DraftCall` | lib/Content/View/Filter/ContentEditViewFilter.php:69-74 | the draft is loaded with the request's `contentId`, the one-element list `[language]` and `versionNo` |
| `EditViewFilter.ContentEditDataParameters` | lib/Content/View/Filter/ContentEditViewFilter.php:90-101 | the update mapper receives exactly `{languageCode, contentType}` |
| `EditViewFilter.ContentEditFormOptions` | lib/Content/View/Filter/ContentEditViewFilter.php:112-126 | the form options are exactly `{languageCode, mainLanguageCode: draft.contentInfo.mainLanguageCode, drafts_enabled: true}` |
| `EditViewFilter.ContentEditViewFilter.EditForm` | lib/Content/View/Filter/ContentEditViewFilter.php:68-80 | loads the draft first, then the content type by the draft's `contentTypeId`; a failed load propagates and stops; a non-string language is a TypeError after both loads; otherwise the form is created with the edit form type, the mapped data and the options; a rejection by the form factory propagates after four calls; a created form then handles the request, and the five calls are exactly these, in this order |
| `EditViewFilter.ParameterBag.Add` | lib/Content/View/Filter/ContentEditViewFilter.php:80 | the given entries replace or join the bag's entries |
| `EditViewFilter.ContentEditViewFilter.HandleContentEditForm` | lib/Content/View/Filter/ContentEditViewFilter.php:62-81 | for any `_controller` other than `ez_content_edit:editVersionDraftAction` the bag is unchanged and no call is made; otherwise the calls are those of EditForm, and the bag's only change is `form` bound to the handled form; an exception leaves the bag unchanged |
| `PhpArray.Lookup` | lib/FieldType/Mapper/KeywordFormMapper.php:27 | reading a name by language code: present exactly when the code is a key, and then the value stored under it |
| `PhpValue.Truthy` | lib/FieldType/Mapper/KeywordFormMapper.php:27 | the `?:` test on a name: false exactly for null, `""` and `"0"` |
| `KeywordFormMapper.LabelFor` | lib/FieldType/Mapper/KeywordFormMapper.php:24-27 | the main-language name when it is truthy (not null, `""` or `"0"`), otherwise the first name; `false` exactly when there are no names; any string label is one of the names |
| `KeywordFormMapper.ValueChild` | lib/FieldType/Mapper/KeywordFormMapper.php:29-42 | the child is named `value`, has the keyword field type, is required exactly when the definition is, carries that label and is not auto-initialized |
| `KeywordFormMapper.FieldForm.Add` | lib/FieldType/Mapper/KeywordFormMapper.php:29-42 | adds a child under its name, replacing one of the same name |
| `KeywordFormMapper.MapFieldValueForm` | lib/FieldType/Mapper/KeywordFormMapper.php:22-43 | the field form gains exactly one child, `value`; no other child changes |
| `KeywordFormMapper.OptionsResolver.SetDefaults` | lib/FieldType/Mapper/KeywordFormMapper.php:47-50 | each given option becomes defined, with the given default |
| `KeywordFormMapper.ConfigureOptions` | lib/FieldType/Mapper/KeywordFormMapper.php:45-51 | the only default declared is `translation_domain = 'ezrepoforms_content_type'` |

## Left out

- Repository services, the form factory, the update mapper (`ContentUpdateMapper::mapToFormData`), `handleRequest` and the action dispatcher are abstract functions. What they do inside is not modelled. NotFound and Unauthorized are opaque.
- The update mapper, `handleRequest`, the action dispatcher, `getResponse`, the parameters injector and the view configurator are modelled as never throwing. Only the repository services and the form factory can fail, and the form factory's failure stands for its InvalidOptionsException. So an exception thrown by one of the never-throwing collaborators is not modelled.
- ContentUpdateMapper and ContentEditType are not part of this model. So the round trip from a draft to its update data and back through form binding is not stated.
- lib/Validator/Constraints/FieldSettings.php holds annotation metadata with two constant getters and no logic, so it is not modelled.
- The event bus is not modelled. The subscription is stated as the map `getSubscribedEvents` returns. The value of FILTER_BUILDER_PARAMETERS comes from the eZ kernel's ViewEvents, which is not part of this model, so the literal the model uses for it is assumed.
- CreateViewBuilder.ContentCreateViewBuilder.BuildView: does not model what the parameters injector and the view configurator do to the view. They are recorded as calls, so the modelled view keeps the default template and the four parameters.
- Form validation internals are flags on the form. That includes Symfony refusing `isValid()` on a form that was never submitted.
- PHP notices are not modelled. These are the undefined-index notice before the `isValid()` failure and the notice when an object is cast to int.
- PhpValue.StringToInt: follows PHP's `(int)` cast for leading whitespace, a sign, digits and 64-bit saturation. It does not follow PHP's float reading of numeric strings. That reading covers the exponent form: `"1e3"` casts to 1000 in PHP and to 1 here. It also covers a fractional part, which PHP reads as a float and can round: `"0.99999999999999999"` casts to 1 in PHP and to 0 here. A digit run too long for a double (over about 309 digits) may also make PHP's float intermediate infinite, in which case PHP gives 0 where the model saturates.
- KeywordFormMapper.LabelFor: `FieldDefinition::getName` is not part of this model. It is read as a plain lookup of the given code, and the form's `mainLanguageCode` option is taken to be a string. So getName's behaviour when called without a language code is not modelled.
- The children of a field form and the entries of the event's parameter bag are maps, so their order is not modelled. The view's template parameters are ordered.
- Symfony's refusal to add a child to an already submitted form is not modelled.
