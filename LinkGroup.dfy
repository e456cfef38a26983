/**
 * The link-group macro: resolve the reference to a location, check that the
 * location is a safe URI, and choose the shape of the output blocks.
 *
 * The collaborators the macro calls (reference serializer, wiki existence and
 * URL lookup, URL security manager, authorization, localization, content
 * parser, XML escaping) are given as the fields of a Services value; the model
 * assumes nothing about what they compute.
 */
module LinkGroup {
  import opened Wrappers
  import opened Rendering
  import opened Parameters

  /** The result of a collaborator call that may throw a checked exception. */
  datatype Attempt<T> = Returned(value: T) | Threw

  /** A URI accepted by the URL security policy. */
  datatype Uri = Uri(text: string)

  /** What the URL security manager does with a location: accept it, or throw one of two exceptions. */
  datatype UriParse = SafeUri(uri: Uri) | UriSyntaxError | SecurityRejected

  datatype Services = Services(
    serialize: DocumentReference -> string,
    documentExists: DocumentReference -> Attempt<bool>,
    getUrl: DocumentReference -> Attempt<string>,
    parseToSafeUri: string -> UriParse,
    hasEditAccess: bool,
    translate: (string, seq<string>) -> string,
    parseContent: (string, bool) -> seq<Block>,
    escape: string -> string)

  const EndLink: string := "</a>"
  const ErrorHeaderKey: string := "org.xwiki.contrib.link-format.invalid-uri-error.header"
  const ErrorDescriptionKey: string := "org.xwiki.contrib.link-format.invalid-uri-error.description"

  /** The macro may be used inline as well as on its own line. */
  function SupportsInlineMode(): (supported: bool)
    ensures supported
  {
    true
  }

  // ---------------------------------------------------------------------------
  // Specification functions

  /** The link target: the document's URL when it exists, its serialized reference otherwise. */
  function ResolvedLocation(reference: DocumentReference, svc: Services): string
  {
    match svc.documentExists(reference)
    case Returned(true) =>
      (match svc.getUrl(reference)
       case Returned(url) => url
       case Threw => svc.serialize(reference))
    case _ => svc.serialize(reference)
  }

  /** The URI when the security manager accepts the location; None for either kind of refusal. */
  function SafeUriOf(location: string, svc: Services): Option<Uri>
  {
    match svc.parseToSafeUri(location)
    case SafeUri(u) => Some(u)
    case _ => None
  }

  /** The blocks parsed from the macro content; a null or empty content is not parsed. */
  function MacroContent(content: Option<string>, context: MacroTransformationContext, svc: Services): seq<Block>
  {
    if content.Some? && content.value != "" then svc.parseContent(content.value, context.isInline) else []
  }

  predicate IsAnnotated(targetSyntax: Option<Syntax>)
  {
    targetSyntax.Some? && (targetSyntax.value.syntaxType == AnnotatedHtml || targetSyntax.value.syntaxType == AnnotatedXhtml)
  }

  function AnchorOpenTag(escapedLocation: string): string
  {
    "<a href=\"" + escapedLocation + "\">"
  }

  /** The diagnostic shown to editors when the location is refused. */
  function InvalidUriError(location: string, svc: Services): Block
  {
    Macro("error", map["title" := svc.translate(ErrorHeaderKey, [])],
          svc.translate(ErrorDescriptionKey, [location]), false)
  }

  /** The output for a given safety verdict and location. */
  function SelectOutput(uri: Option<Uri>, location: string, content: Option<string>,
                        context: MacroTransformationContext, svc: Services): seq<Block>
  {
    if uri.None? then
      if svc.hasEditAccess then [InvalidUriError(location, svc)] else []
    else
      var macroContent := MacroContent(content, context, svc);
      if IsAnnotated(context.targetSyntax) then
        var editable := MetaDataBlock(macroContent, NonGeneratedContent);
        if context.isInline then [editable] else [Group([editable])]
      else
        var htmlLinkContent := AnchorOpenTag(svc.escape(location));
        if context.isInline then [Raw(htmlLinkContent, Html50)] + macroContent + [Raw(EndLink, Html50)]
        else [Raw(htmlLinkContent, Html50), Group(macroContent), Raw(EndLink, Html50)]
  }

  /** What one execution of the macro returns. */
  function LinkGroupOutput(reference: DocumentReference, content: Option<string>,
                           context: MacroTransformationContext, svc: Services): seq<Block>
  {
    var location := ResolvedLocation(reference, svc);
    SelectOutput(SafeUriOf(location, svc), location, content, context, svc)
  }

  /** The characters of a double-quoted attribute value: everything up to the first closing quote. */
  function QuotedValue(s: string): (v: string)
    ensures |v| <= |s| && v == s[..|v|]
    ensures '"' !in v
  {
    if s == [] || s[0] == '"' then [] else [s[0]] + QuotedValue(s[1..])
  }

  /** The href value of a text that is exactly one open anchor tag, read as an HTML reader does. */
  function HrefOf(tag: string): Option<string>
  {
    if |tag| >= 9 && tag[..9] == "<a href=\"" then
      var v := QuotedValue(tag[9..]);
      if tag[9 + |v|..] == "\">" then Some(v) else None
    else None
  }

  // ---------------------------------------------------------------------------
  // The macro's steps

  /** Resolves the reference; a lookup exception is swallowed and leaves the serialized form. */
  method ResolveLocation(reference: DocumentReference, svc: Services) returns (location: string)
    ensures location == ResolvedLocation(reference, svc)
    ensures (svc.documentExists(reference) == Returned(true) && svc.getUrl(reference).Returned?) ==>
              location == svc.getUrl(reference).value
    ensures !(svc.documentExists(reference) == Returned(true) && svc.getUrl(reference).Returned?) ==>
              location == svc.serialize(reference)
  {
    location := svc.serialize(reference);
    var found := svc.documentExists(reference);
    if found.Returned? && found.value {
      var url := svc.getUrl(reference);
      if url.Returned? {
        location := url.value;
      }
    }
  }

  /** Asks the security manager about the location; both of its exceptions leave the URI unset. */
  method ParseToSafeUri(location: string, svc: Services) returns (uri: Option<Uri>)
    ensures uri == SafeUriOf(location, svc)
    ensures uri.Some? <==> svc.parseToSafeUri(location).SafeUri?
    ensures uri.Some? ==> svc.parseToSafeUri(location) == SafeUri(uri.value)
  {
    uri := None;
    var parsed := svc.parseToSafeUri(location);
    match parsed {
      case SafeUri(u) => uri := Some(u);
      case UriSyntaxError =>
      case SecurityRejected =>
    }
  }

  /** Builds the inline anchor list: the open tag, every content block in order, the closing tag. */
  method BuildInlineAnchor(htmlLinkContent: string, macroContent: seq<Block>) returns (result: seq<Block>)
    ensures result == [Raw(htmlLinkContent, Html50)] + macroContent + [Raw(EndLink, Html50)]
    ensures |result| == 2 + |macroContent|
    ensures forall k :: 0 <= k < |macroContent| ==> result[k + 1] == macroContent[k]
  {
    result := [Raw(htmlLinkContent, Html50)];
    for i := 0 to |macroContent|
      invariant result == [Raw(htmlLinkContent, Html50)] + macroContent[..i]
    {
      result := result + [macroContent[i]];
    }
    result := result + [Raw(EndLink, Html50)];
  }

  /** Executes the macro. The reference is a mandatory parameter, so it is present. */
  method Execute(parameters: LinkGroupParameters, content: Option<string>,
                 context: MacroTransformationContext, svc: Services) returns (result: seq<Block>)
    requires parameters.reference.Some?
    ensures result == LinkGroupOutput(parameters.reference.value, content, context, svc)
  {
    var reference := parameters.GetReference();
    var location := ResolveLocation(reference.value, svc);
    var uri := ParseToSafeUri(location, svc);
    if uri.None? {
      if svc.hasEditAccess {
        result := [InvalidUriError(location, svc)];
      } else {
        result := [];
      }
    } else {
      var macroContent := MacroContent(content, context, svc);
      if IsAnnotated(context.targetSyntax) {
        var editable := MetaDataBlock(macroContent, NonGeneratedContent);
        if context.isInline {
          result := [editable];
        } else {
          result := [Group([editable])];
        }
      } else {
        var htmlLinkContent := AnchorOpenTag(svc.escape(location));
        if context.isInline {
          result := BuildInlineAnchor(htmlLinkContent, macroContent);
        } else {
          result := [Raw(htmlLinkContent, Html50), Group(macroContent), Raw(EndLink, Html50)];
        }
      }
    }
  }

  // ---------------------------------------------------------------------------
  // Properties of the output

  /** An editor facing a refused location gets exactly one error macro naming that location. */
  lemma UnsafeEditorSeesErrorBlock(reference: DocumentReference, content: Option<string>,
                                   context: MacroTransformationContext, svc: Services)
    requires SafeUriOf(ResolvedLocation(reference, svc), svc).None?
    requires svc.hasEditAccess
    ensures var out := LinkGroupOutput(reference, content, context, svc);
            |out| == 1 &&
            out[0] == Macro("error", map["title" := svc.translate(ErrorHeaderKey, [])],
                            svc.translate(ErrorDescriptionKey, [ResolvedLocation(reference, svc)]), false)
  {
  }

  /** A viewer without edit right facing a refused location gets nothing at all. */
  lemma UnsafeNonEditorSeesNothing(reference: DocumentReference, content: Option<string>,
                                   context: MacroTransformationContext, svc: Services)
    requires SafeUriOf(ResolvedLocation(reference, svc), svc).None?
    requires !svc.hasEditAccess
    ensures LinkGroupOutput(reference, content, context, svc) == []
  {
  }

  /** The first output block tells the four branches apart. */
  lemma OutcomeIsClassified(reference: DocumentReference, content: Option<string>,
                            context: MacroTransformationContext, svc: Services)
    ensures var out := LinkGroupOutput(reference, content, context, svc);
            var unsafe := SafeUriOf(ResolvedLocation(reference, svc), svc).None?;
            && (out == [] <==> unsafe && !svc.hasEditAccess)
            && (out != [] && out[0].Macro? <==> unsafe && svc.hasEditAccess)
            && (out != [] && out[0].Raw? <==> !unsafe && !IsAnnotated(context.targetSyntax))
            && (out != [] && (out[0].MetaDataBlock? || out[0].Group?) <==> !unsafe && IsAnnotated(context.targetSyntax))
  {
  }

  /** Which of the two exceptions the security manager throws makes no difference to the output. */
  lemma FailureCauseIsInvisible(reference: DocumentReference, content: Option<string>,
                                context: MacroTransformationContext, svc: Services,
                                otherPolicy: string -> UriParse)
    requires !svc.parseToSafeUri(ResolvedLocation(reference, svc)).SafeUri?
    requires !otherPolicy(ResolvedLocation(reference, svc)).SafeUri?
    ensures LinkGroupOutput(reference, content, context, svc)
            == LinkGroupOutput(reference, content, context, svc.(parseToSafeUri := otherPolicy))
  {
  }

  /** Null or empty content is never handed to the parser: the content is empty whatever the parser does. */
  lemma ParserUnusedForEmptyContent(content: Option<string>, context: MacroTransformationContext,
                                    svc: Services, otherParser: (string, bool) -> seq<Block>)
    requires content.None? || content.value == ""
    ensures MacroContent(content, context, svc) == []
    ensures MacroContent(content, context, svc.(parseContent := otherParser)) == []
  {
  }

  /** Non-empty content is parsed once, with the context's inline flag. */
  lemma ParserUsedForNonEmptyContent(content: Option<string>, context: MacroTransformationContext, svc: Services)
    requires content.Some? && content.value != ""
    ensures MacroContent(content, context, svc) == svc.parseContent(content.value, context.isInline)
  {
  }

  /** With empty content a safe link still returns its wrapper, around nothing. */
  lemma EmptyContentKeepsWrapper(reference: DocumentReference, content: Option<string>,
                                 context: MacroTransformationContext, svc: Services)
    requires content.None? || content.value == ""
    requires SafeUriOf(ResolvedLocation(reference, svc), svc).Some?
    ensures var out := LinkGroupOutput(reference, content, context, svc);
            var open := Raw(AnchorOpenTag(svc.escape(ResolvedLocation(reference, svc))), Html50);
            var close := Raw(EndLink, Html50);
            out == (if IsAnnotated(context.targetSyntax) then
                      (if context.isInline then [MetaDataBlock([], NonGeneratedContent)]
                       else [Group([MetaDataBlock([], NonGeneratedContent)])])
                    else if context.isInline then [open, close]
                    else [open, Group([]), close])
  {
  }

  /** An annotated HTML or XHTML target gets the content under a metadata block and no raw fragment of the macro's own. */
  lemma AnnotatedTargetHasNoAnchor(reference: DocumentReference, content: Option<string>,
                                   context: MacroTransformationContext, svc: Services)
    requires SafeUriOf(ResolvedLocation(reference, svc), svc).Some?
    requires IsAnnotated(context.targetSyntax)
    ensures var out := LinkGroupOutput(reference, content, context, svc);
            var editable := MetaDataBlock(MacroContent(content, context, svc), NonGeneratedContent);
            && out == (if context.isInline then [editable] else [Group([editable])])
            && RawTexts(out) == RawTexts(MacroContent(content, context, svc))
  {
    var macroContent := MacroContent(content, context, svc);
    var editable := MetaDataBlock(macroContent, NonGeneratedContent);
    RawTextsSingleton(editable);
    RawTextsSingleton(Group([editable]));
  }

  /** Any other target, a null one included, gets the content between a raw open anchor and a raw closing tag. */
  lemma PlainTargetWrapsInAnchor(reference: DocumentReference, content: Option<string>,
                                 context: MacroTransformationContext, svc: Services)
    requires SafeUriOf(ResolvedLocation(reference, svc), svc).Some?
    requires !IsAnnotated(context.targetSyntax)
    ensures var out := LinkGroupOutput(reference, content, context, svc);
            var macroContent := MacroContent(content, context, svc);
            var open := AnchorOpenTag(svc.escape(ResolvedLocation(reference, svc)));
            && (context.isInline ==>
                  && out == [Raw(open, Html50)] + macroContent + [Raw(EndLink, Html50)]
                  && |out| == 2 + |macroContent|
                  && out[1..|out| - 1] == macroContent)
            && (!context.isInline ==> out == [Raw(open, Html50), Group(macroContent), Raw(EndLink, Html50)])
            && RawTexts(out) == [open] + RawTexts(macroContent) + [EndLink]
  {
    var macroContent := MacroContent(content, context, svc);
    var open := AnchorOpenTag(svc.escape(ResolvedLocation(reference, svc)));
    var first, last := Raw(open, Html50), Raw(EndLink, Html50);
    RawTextsSingleton(first);
    RawTextsSingleton(last);
    if context.isInline {
      RawTextsAppend([first], macroContent);
      RawTextsAppend([first] + macroContent, [last]);
    } else {
      RawTextsSingleton(Group(macroContent));
      RawTextsAppend([first], [Group(macroContent)]);
      RawTextsAppend([first, Group(macroContent)], [last]);
      assert [first, Group(macroContent), last] == [first] + [Group(macroContent)] + [last];
    }
  }

  /** The open anchor's attribute value is exactly the escaped location. */
  lemma AnchorHrefIsEscapedLocation(location: string, svc: Services)
    requires '"' !in svc.escape(location)
    ensures HrefOf(AnchorOpenTag(svc.escape(location))) == Some(svc.escape(location))
  {
    var e := svc.escape(location);
    var tag := AnchorOpenTag(e);
    assert tag[9..] == e + "\">";
    QuotedValueStopsAtQuote(e, "\">");
  }

  /** Without that assumption about escaping the read-back fails: a quote in the escaped text ends the attribute early. */
  lemma QuoteInEscapedLocationBreaksHref(location: string, svc: Services)
    requires '"' in svc.escape(location)
    ensures HrefOf(AnchorOpenTag(svc.escape(location))) != Some(svc.escape(location))
  {
  }

  /** A quote-free text followed by a quote is read back whole. */
  lemma {:induction false} QuotedValueStopsAtQuote(e: string, rest: string)
    requires '"' !in e
    requires |rest| > 0 && rest[0] == '"'
    ensures QuotedValue(e + rest) == e
    decreases |e|
  {
    if e == [] {
      assert e + rest == rest;
    } else {
      assert (e + rest)[0] == e[0];
      assert (e + rest)[1..] == e[1..] + rest;
      QuotedValueStopsAtQuote(e[1..], rest);
    }
  }

  /** On an annotated target the location never reaches the output: any two safe locations give the same blocks. */
  lemma AnnotatedOutputIgnoresLocation(u1: Uri, l1: string, u2: Uri, l2: string, content: Option<string>,
                                       context: MacroTransformationContext, svc: Services)
    requires IsAnnotated(context.targetSyntax)
    ensures SelectOutput(Some(u1), l1, content, context, svc) == SelectOutput(Some(u2), l2, content, context, svc)
  {
  }

  /** Once the location is safe, the output depends only on the location string, never on the parsed URI. */
  lemma ParsedUriValueIsUnused(u1: Uri, u2: Uri, location: string, content: Option<string>,
                               context: MacroTransformationContext, svc: Services)
    ensures SelectOutput(Some(u1), location, content, context, svc) == SelectOutput(Some(u2), location, content, context, svc)
  {
  }
}
