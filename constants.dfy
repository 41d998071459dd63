/** The literal constants the plugin injects into the generated worker entry. */
module Constants {
  import opened Text

  /** Marks where the rendered markup goes in the page template. */
  const ContentPlaceholder := "<!-- __SWSR_CONTENT_PLACEHOLDER__ -->"

  /**
   * The client chunk-connection registry, minified, as it is written into the
   * stream-mode bootstrap script. Its behaviour is modelled by the module
   * StreamRuntime.
   */
  const MinifiedStreamRuntime := Concat(MinifiedStreamRuntimePieces)

  /** The minified runtime's source text, cut where the lemma below looks. */
  const MinifiedStreamRuntimePieces := [
    "function __SWSR_CREATE_CONNECTIONS__(",
    "_){",
    "window.__SWSR_CHUNK_CONNECTIONS__=",
    "_.reduce(function(_,r){return _[r]=__SWSR_CREATE_CONNECTION__(),_},{})}",
    "function __SWSR_CREATE_CONNECTION__()",
    "{var _=",
    "{status:0}",
    ";return _.promise=new Promise(function(r,n){_.resolve=function(n){",
    "_.status=1,_.data=n,r(n)",
    "},_.reject=function(r){",
    "_.status=2;var t=Error(r);t.name=\"SwsrChunkError\",_.error=t,n(t)",
    "}}),_}"
  ]

  /**
   * The minified text contains the definitions of both registry functions,
   * the assignment of the global table, and a connection literal with
   * status 0. This is a fact about the text only: what it does when run is
   * modelled by `StreamRuntime`.
   */
  lemma MinifiedRegistryShape()
    ensures Contains(MinifiedStreamRuntime, "function __SWSR_CREATE_CONNECTIONS__(")
    ensures Contains(MinifiedStreamRuntime, "window.__SWSR_CHUNK_CONNECTIONS__=")
    ensures Contains(MinifiedStreamRuntime, "function __SWSR_CREATE_CONNECTION__()")
    ensures Contains(MinifiedStreamRuntime, "{status:0}")
  {
    var pieces := MinifiedStreamRuntimePieces;
    ContainsPiece(pieces, 0);
    ContainsPiece(pieces, 2);
    ContainsPiece(pieces, 4);
    ContainsPiece(pieces, 6);
  }

  /**
   * The minified text contains a resolve body that sets status 1 and the
   * data and then calls the promise's fulfil function, and a reject body
   * that sets status 2, names its Error SwsrChunkError and rejects with it.
   * Again a fact about the text only.
   */
  lemma MinifiedSettleShape()
    ensures Contains(MinifiedStreamRuntime, "_.status=1,_.data=n,r(n)")
    ensures Contains(MinifiedStreamRuntime, "_.status=2;var t=Error(r);t.name=\"SwsrChunkError\",_.error=t,n(t)")
  {
    var pieces := MinifiedStreamRuntimePieces;
    ContainsPiece(pieces, 8);
    ContainsPiece(pieces, 10);
  }
}
