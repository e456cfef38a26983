# link-group macro — a Dafny model

This project models the `link-group` rendering macro of the XWiki link-format extension.
The macro wraps arbitrary content in a link to a wiki document. One execution runs three steps:

1. **Resolve.** The document reference becomes a location string. If the wiki says the document exists, the location is the document's URL. Otherwise it is the serialized reference. A lookup exception from the existence check or from the URL lookup is swallowed and leaves the serialized form.
2. **Check safety.** The URL security manager either accepts the location as a URI or throws. It may throw a URI syntax exception or a security exception. Both give the same outcome: no URI.
3. **Select the output shape.**
   - Unsafe location, caller has edit right: one `error` macro block, with a localized title and a localized description parameterised by the location.
   - Unsafe location, caller lacks edit right: no blocks at all.
   - Safe location, annotated HTML or XHTML target syntax: the parsed content inside a non-generated-content metadata block. There is no anchor. In block mode that metadata block is wrapped in one group.
   - Safe location, any other target syntax (a null one included): a raw `<a href="…">` fragment with the escaped location, then the content, then a raw `</a>`. Inline mode flattens these into one list. Block mode puts the content in one group between the two fragments.

The macro content is parsed only when it is neither null nor empty. Otherwise it is the empty list, and every safe branch still returns its wrapper.

Files:
- `Wrappers.dfy`: `Option`, which stands for a Java value that may be null.
- `Rendering.dfy`: the host's types. These are the document reference, syntaxes and syntax types, the macro transformation context (inline flag and an optional target syntax) and the block tree. The file also defines `RawTexts`, which collects every raw fragment in a block tree.
- `LinkGroupParameters.dfy` (module `Parameters`): the parameter object. It is a class with one mutable `reference` field.
- `LinkGroup.dfy`: the collaborators, bundled in `Services`. Also the specification functions (`ResolvedLocation`, `SafeUriOf`, `MacroContent`, `SelectOutput`, `LinkGroupOutput`), the imperative steps (`ResolveLocation`, `ParseToSafeUri`, `BuildInlineAnchor`, `Execute`) and the lemmas about the output.

The collaborators are fields of a `Services` value and are otherwise unconstrained:
- the reference serializer;
- the wiki's `exists` and `getURL`, each of which may throw;
- the URL security manager's `parseToSafeURI`;
- the edit-right check;
- the localization lookup;
- the content parser;
- XML escaping.

`Execute` is proved equal to `LinkGroupOutput`. The lemmas state the macro's promises about that function.

## Model

| member | source | states |
|---|---|---|
| LinkGroup.ResolvedLocation | link-format-macros-api/src/main/java/org/xwiki/contrib/linkformat/macros/LinkGroup.java:131-139 | Specification of the resolver, with no contract of its own. `LinkGroup.ResolveLocation` is proved equal to it and states its cases. |
| LinkGroup.SafeUriOf | link-format-macros-api/src/main/java/org/xwiki/contrib/linkformat/macros/LinkGroup.java:141-157 | Specification of the safety check, with no contract of its own. `LinkGroup.ParseToSafeUri` is proved equal to it and states that both exceptions give None. `LinkGroup.FailureCauseIsInvisible` shows the output cannot tell the two causes apart. |
| LinkGroup.MacroContent | link-format-macros-api/src/main/java/org/xwiki/contrib/linkformat/macros/LinkGroup.java:172-178 | Specification of the content guard, with no contract of its own. `LinkGroup.ParserUnusedForEmptyContent` and `LinkGroup.ParserUsedForNonEmptyContent` state its two cases. |
| LinkGroup.IsAnnotated | link-format-macros-api/src/main/java/org/xwiki/contrib/linkformat/macros/LinkGroup.java:180-183 | The target-syntax test, with no contract of its own. It holds only for a present syntax whose type is annotated HTML or annotated XHTML. `LinkGroup.AnnotatedTargetHasNoAnchor` and `LinkGroup.PlainTargetWrapsInAnchor` state the two outcomes. |
| LinkGroup.AnchorOpenTag | link-format-macros-api/src/main/java/org/xwiki/contrib/linkformat/macros/LinkGroup.java:194 | The open tag text, with no contract of its own. `LinkGroup.AnchorHrefIsEscapedLocation` states that its href value reads back as the escaped location. |
| LinkGroup.InvalidUriError | link-format-macros-api/src/main/java/org/xwiki/contrib/linkformat/macros/LinkGroup.java:161-167 | The editor's error block, with no contract of its own. `LinkGroup.UnsafeEditorSeesErrorBlock` states its id, title, description and inline flag. |
| LinkGroup.SelectOutput | link-format-macros-api/src/main/java/org/xwiki/contrib/linkformat/macros/LinkGroup.java:159-207 | The four-way shape selector, with no contract of its own. `LinkGroup.OutcomeIsClassified`, `LinkGroup.AnnotatedOutputIgnoresLocation` and `LinkGroup.ParsedUriValueIsUnused` state its properties. The branch lemmas state them through `LinkGroup.LinkGroupOutput`. |
| LinkGroup.LinkGroupOutput | link-format-macros-api/src/main/java/org/xwiki/contrib/linkformat/macros/LinkGroup.java:124-209 | One whole execution as a function, with no contract of its own. `LinkGroup.Execute` is proved equal to it, and the branch lemmas (unsafe editor, unsafe non-editor, annotated, plain, empty content) state its output. |
| LinkGroup.ResolveLocation | link-format-macros-api/src/main/java/org/xwiki/contrib/linkformat/macros/LinkGroup.java:131-139 | The location is the document URL exactly when `exists` returns true and `getURL` returns. Otherwise it is the serialized reference: when `exists` is false, or either call throws. The step never fails. |
| LinkGroup.ParseToSafeUri | link-format-macros-api/src/main/java/org/xwiki/contrib/linkformat/macros/LinkGroup.java:141-157 | A URI is set if and only if the security manager accepts the location, and it is the URI returned. A syntax error and a security rejection both leave it unset. Nothing is thrown. |
| LinkGroup.FailureCauseIsInvisible | link-format-macros-api/src/main/java/org/xwiki/contrib/linkformat/macros/LinkGroup.java:147-170 | Replacing one refusing security policy by any other refusing one gives identical output. The caller cannot tell a syntax error from a security rejection. |
| LinkGroup.UnsafeEditorSeesErrorBlock | link-format-macros-api/src/main/java/org/xwiki/contrib/linkformat/macros/LinkGroup.java:159-167 | For a refused location and a caller with edit right, the output is exactly one `error` macro block. Its `title` parameter is the header-key translation. Its content is the description-key translation with the location as parameter. Its inline flag is false. |
| LinkGroup.UnsafeNonEditorSeesNothing | link-format-macros-api/src/main/java/org/xwiki/contrib/linkformat/macros/LinkGroup.java:168-169 | For a refused location and a caller without edit right, the output is empty, so the location reaches no block. |
| LinkGroup.OutcomeIsClassified | link-format-macros-api/src/main/java/org/xwiki/contrib/linkformat/macros/LinkGroup.java:159-207 | The four branches are exclusive and exhaustive. The output is empty iff unsafe and no edit right. It starts with a macro block iff unsafe and edit right. It starts with a raw fragment iff safe and not annotated. It starts with a metadata block or a group iff safe and annotated. |
| LinkGroup.ParserUnusedForEmptyContent | link-format-macros-api/src/main/java/org/xwiki/contrib/linkformat/macros/LinkGroup.java:172-178 | Null or empty content gives the empty content list whatever the parser would return, so the parser is not consulted. |
| LinkGroup.ParserUsedForNonEmptyContent | link-format-macros-api/src/main/java/org/xwiki/contrib/linkformat/macros/LinkGroup.java:173-175 | Non-empty content becomes the parser's children, parsed with the context's inline flag. |
| LinkGroup.EmptyContentKeepsWrapper | link-format-macros-api/src/main/java/org/xwiki/contrib/linkformat/macros/LinkGroup.java:172-206 | With null or empty content, a safe location still gives its branch's wrapper around nothing. That is `[MetaData([])]`, `[Group([MetaData([])])]`, `[open, close]` or `[open, Group([]), close]`. |
| LinkGroup.AnnotatedTargetHasNoAnchor | link-format-macros-api/src/main/java/org/xwiki/contrib/linkformat/macros/LinkGroup.java:180-192 | For a safe location and an annotated HTML or XHTML target, inline gives `[MetaData(content)]` and block gives `[Group([MetaData(content)])]`. The raw fragments of the output are exactly those of the content, so the macro adds no anchor. |
| LinkGroup.AnnotatedOutputIgnoresLocation | link-format-macros-api/src/main/java/org/xwiki/contrib/linkformat/macros/LinkGroup.java:180-192 | On an annotated target, any two safe locations give the same output, so the location is not emitted there. |
| LinkGroup.PlainTargetWrapsInAnchor | link-format-macros-api/src/main/java/org/xwiki/contrib/linkformat/macros/LinkGroup.java:180-206 | For a safe location and a null or non-annotated target, the open tag is `<a href="` + escape(location) + `">`. Inline gives open, then the content in order, then `</a>`, of length 2 + the content's length. Block gives exactly `[open, Group(content), </a>]`. The raw fragments are the open tag, the content's fragments and `</a>`. |
| LinkGroup.ParsedUriValueIsUnused | link-format-macros-api/src/main/java/org/xwiki/contrib/linkformat/macros/LinkGroup.java:171-207 | Once the location is safe, the output depends on the location string and never on the parsed URI. |
| LinkGroup.AnchorHrefIsEscapedLocation | link-format-macros-api/src/main/java/org/xwiki/contrib/linkformat/macros/LinkGroup.java:194 | Suppose the escaped location contains no double quote. Then an HTML reader takes the open tag's href value up to the first quote, and that value is exactly the escaped location. |
| LinkGroup.QuoteInEscapedLocationBreaksHref | link-format-macros-api/src/main/java/org/xwiki/contrib/linkformat/macros/LinkGroup.java:194 | If the escaped text did contain a double quote, the href value read back would not be the escaped location. That is why the read-back needs the escaping assumption. |
| LinkGroup.BuildInlineAnchor | link-format-macros-api/src/main/java/org/xwiki/contrib/linkformat/macros/LinkGroup.java:196-200 | The list built by add, addAll and add is the open fragment, every content block in its original order, and the closing fragment. Its length is 2 + the content's length. |
| LinkGroup.Execute | link-format-macros-api/src/main/java/org/xwiki/contrib/linkformat/macros/LinkGroup.java:124-209 | Given a present reference, the imperative execution returns exactly `LinkGroupOutput` of that reference. The lemmas above state that function's properties. |
| LinkGroup.SupportsInlineMode | link-format-macros-api/src/main/java/org/xwiki/contrib/linkformat/macros/LinkGroup.java:117-121 | The macro supports inline mode. |
| Parameters.LinkGroupParameters.constructor | link-format-macros-api/src/main/java/org/xwiki/contrib/linkformat/macros/LinkGroupParameters.java:32-34 | A new parameter object's reference is null (None). |
| Parameters.LinkGroupParameters.GetReference | link-format-macros-api/src/main/java/org/xwiki/contrib/linkformat/macros/LinkGroupParameters.java:41-44 | Returns the stored reference and, having no modifies clause, changes no state. |
| Parameters.LinkGroupParameters.SetReference | link-format-macros-api/src/main/java/org/xwiki/contrib/linkformat/macros/LinkGroupParameters.java:51-56 | The stored reference becomes the argument, a null one included. |
| Parameters.SetThenGet | link-format-macros-api/src/main/java/org/xwiki/contrib/linkformat/macros/LinkGroupParameters.java:41-56 | After `setReference(r)`, `getReference()` returns `r`. |
| Parameters.SetTwiceLastWins | link-format-macros-api/src/main/java/org/xwiki/contrib/linkformat/macros/LinkGroupParameters.java:53-56 | On any parameter object and for any two values, null ones included: after `setReference(a)` then `setReference(b)`, `getReference()` returns `b` and the field holds `b`. |
| Parameters.GetTwice | link-format-macros-api/src/main/java/org/xwiki/contrib/linkformat/macros/LinkGroupParameters.java:41-44 | Two successive reads return the same value, the stored reference. |

## Left out

- Dependency injection, the component manager, the XWiki context providers and the macro descriptor built in the constructor: these are framework wiring. Only the collaborators' results enter the model.
- What the collaborators compute is left out. The serializer, `exists`/`getURL`, the trusted-domain policy and URI syntax of `parseToSafeURI`, `hasAccess(EDIT)`, the translations, the content parser and `XMLUtils.escape` are unconstrained inputs. So the model does not prove that re-parsing the href recovers the original location, because that depends on the escaping table of a library outside this model.
- Logging on the lookup-failure and unsafe-location paths: it has no effect on the output.
- A `MacroExecutionException` thrown by the content parser is left out. The parser is a total function here, because that failure belongs to the host contract.
- The null-reference case of `execute`: the reference parameter is mandatory, so `Execute` requires it to be present.
- A null XWiki instance from the context is left out, as is any other runtime fault of the host.
- The `ArrayList` of the inline anchor branch is a sequence. `add` appends one block. `addAll` is a loop that appends the content blocks one by one. The initial capacity has no observable effect. The immutable `List.of` results are sequence displays.
- Of the other target syntaxes only their being something other than annotated HTML or XHTML matters. `SyntaxType` lists a few and an open-ended constructor.
- `IsAnnotated` compares syntax types as an enumeration. The host compares syntax types by their identifier, and that identifier comparison is not part of this model. So an `OtherSyntaxType` is taken never to carry the identifier of annotated HTML or annotated XHTML.
- The content parser is a function of the content text and the inline flag. The host parser also receives the transformation context and a `transform = false` flag. The model's parser cannot depend on the context beyond its inline flag.
- LinkGroup.AnchorHrefIsEscapedLocation: assumes the escaped location contains no double quote. The escaping function is not part of this model, so that part of its behaviour is stated as a precondition. `LinkGroup.QuoteInEscapedLocationBreaksHref` shows that the read-back fails without it.
