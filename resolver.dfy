/**
 * The identifier dispatch of DefaultMediaLib.getItem(CharSequence): a cache
 * hit is returned as it is; otherwise the id is split at its first ':'.  A
 * bare id names one of the three root containers or nothing; a prefixed id
 * is routed by its scheme to the static `create` of an item class, or to the
 * favorites or playlists container's own lookup.  The constructors are not
 * part of this model: a route is returned as a tag naming the call made.
 */
module Resolver {
  import opened Wrappers

  /** The schemes of the switch in getItem, one per item class or container. */
  datatype Scheme = File | Folder | Cue | CueTrack | M3u | M3uGroup | M3uTrack | Favorite | Playlist

  /** The three root containers, each a singleton with a fixed id. */
  datatype Root = Folders | Favorites | Playlists

  /** What getItem hands back: a completed future of a cached item or a root container, a constructor call, a container lookup, or a completed null. */
  datatype Resolution<T> =
    | Hit(item: T)
    | Container(root: Root)
    | Create(scheme: Scheme, id: string)
    | Delegate(owner: Root, id: string)
    | Null

  /** The SCHEME constant of each item class (FileItem.SCHEME, ...). */
  function SchemeName(s: Scheme): string
  {
    match s
    case File => "file"
    case Folder => "folder"
    case Cue => "cue"
    case CueTrack => "cuetrack"
    case M3u => "m3u"
    case M3uGroup => "m3ugroup"
    case M3uTrack => "m3utrack"
    case Favorite => "favorite"
    case Playlist => "playlist"
  }

  /** The ID constant of each root container (DefaultFolders.ID, ...). */
  function RootId(r: Root): string
  {
    match r
    case Folders => "Folders"
    case Favorites => "Favorites"
    case Playlists => "Playlists"
  }

  /** String.indexOf(char): the first index of `c` in `s`, or -1. */
  function IndexOf(s: string, c: char): (r: int)
    ensures -1 <= r < |s|
    ensures r == -1 <==> c !in s
    ensures r >= 0 ==> s[r] == c && c !in s[..r]
  {
    if s == [] then -1
    else if s[0] == c then 0
    else
      var k := IndexOf(s[1..], c);
      if k == -1 then -1
      else
        assert s[..k + 1] == [s[0]] + s[1..][..k];
        k + 1
  }

  /** The case labels of the scheme switch: a prefix names at most one scheme. */
  function SchemeOf(prefix: string): (r: Option<Scheme>)
    ensures r.Some? ==> SchemeName(r.value) == prefix
    ensures r.None? ==> forall s :: SchemeName(s) != prefix
  {
    if prefix == "file" then Some(File)
    else if prefix == "folder" then Some(Folder)
    else if prefix == "cue" then Some(Cue)
    else if prefix == "cuetrack" then Some(CueTrack)
    else if prefix == "m3u" then Some(M3u)
    else if prefix == "m3ugroup" then Some(M3uGroup)
    else if prefix == "m3utrack" then Some(M3uTrack)
    else if prefix == "favorite" then Some(Favorite)
    else if prefix == "playlist" then Some(Playlist)
    else None
  }

  /** The case labels of the bare-id switch. */
  function RootOf(id: string): (r: Option<Root>)
    ensures r.Some? ==> RootId(r.value) == id
    ensures r.None? ==> forall root :: RootId(root) != id
  {
    if id == "Folders" then Some(Folders)
    else if id == "Favorites" then Some(Favorites)
    else if id == "Playlists" then Some(Playlists)
    else None
  }

  /** Where a prefixed id goes once its scheme is known; the whole id is passed on. */
  function Route<T>(s: Scheme, id: string): (r: Resolution<T>)
    ensures r.Create? || r.Delegate?
    ensures r.Delegate? <==> s == Favorite || s == Playlist
    ensures r.Create? ==> r.scheme == s && r.id == id
    ensures r.Delegate? ==> r.id == id && (r.owner == Favorites <==> s == Favorite) && r.owner != Folders
  {
    match s
    case Favorite => Delegate(Favorites, id)
    case Playlist => Delegate(Playlists, id)
    case _ => Create(s, id)
  }

  /** getItem(CharSequence), given what getFromCache returned for the id. */
  function Resolve<T>(id: string, cached: Option<T>): (r: Resolution<T>)
    ensures r.Hit? <==> cached.Some?
    ensures cached.Some? ==> r == Hit(cached.value)
    ensures (r.Create? || r.Delegate?) ==> r.id == id && ':' in id
    ensures r.Container? ==> RootId(r.root) == id
  {
    if cached.Some? then Hit(cached.value)
    else
      var idx := IndexOf(id, ':');
      if idx == -1 then
        match RootOf(id)
        case Some(root) => Container(root)
        case None => Null
      else Dispatch(id[..idx], id)
  }

  /** The scheme switch of getItem: route by the prefix, or null for an unknown one. */
  function Dispatch<T>(prefix: string, id: string): (r: Resolution<T>)
    ensures r.Null? <==> forall s :: SchemeName(s) != prefix
    ensures r.Create? ==> SchemeName(r.scheme) == prefix && r.id == id
    ensures r.Delegate? ==> SchemeName(if r.owner == Favorites then Favorite else Playlist) == prefix && r.id == id
    ensures !r.Hit? && !r.Container?
  {
    match SchemeOf(prefix)
    case Some(s) => Route(s, id)
    case None => Null
  }

  /** The scheme part of an id that contains ':'. */
  function Prefix(id: string): string
    requires ':' in id
  {
    id[..IndexOf(id, ':')]
  }

  /** Neither a scheme name nor a root id contains ':'. */
  lemma NamesAreColonFree(s: Scheme, root: Root)
    ensures ':' !in SchemeName(s) && ':' !in RootId(root)
  {
  }

  /** Each scheme's name selects that scheme: the case labels are distinct. */
  lemma SchemeOfName(s: Scheme)
    ensures SchemeOf(SchemeName(s)) == Some(s)
  {
    match s
    case File =>
    case Folder =>
    case Cue =>
    case CueTrack =>
    case M3u =>
    case M3uGroup =>
    case M3uTrack =>
    case Favorite =>
    case Playlist =>
  }

  /** The first ':' of `p + ":" + rest` is the one after `p` when `p` has none. */
  lemma {:induction false} IndexOfAfterPlainPrefix(p: string, rest: string)
    requires ':' !in p
    ensures IndexOf(p + [':'] + rest, ':') == |p|
    decreases |p|
  {
    if p != [] {
      var s := p + [':'] + rest;
      assert s[1..] == p[1..] + [':'] + rest;
      IndexOfAfterPlainPrefix(p[1..], rest);
    }
  }

  /** A cache hit returns the cached item, whatever the id. */
  lemma HitShortCircuits<T>(id: string, item: T)
    ensures Resolve(id, Some(item)) == Hit(item)
  {
  }

  /** A bare id resolves to a root container exactly when it is that container's id; any other bare id to null. */
  lemma BareIdResolution<T>(id: string)
    requires ':' !in id
    ensures forall root :: Resolve<T>(id, None) == Container(root) <==> id == RootId(root)
    ensures (forall root :: id != RootId(root)) ==> Resolve<T>(id, None) == Null
  {
  }

  /** Every root container is found by its own id. */
  lemma RootIdResolves<T>(root: Root)
    ensures Resolve<T>(RootId(root), None) == Container(root)
  {
    NamesAreColonFree(File, root);
  }

  /** Every scheme routes `scheme:payload` to its own constructor or container, with the whole id. */
  lemma SchemeResolves<T>(s: Scheme, payload: string)
    ensures var id := SchemeName(s) + ":" + payload;
      Resolve<T>(id, None) == Route(s, id)
  {
    var name := SchemeName(s);
    var id := name + ":" + payload;
    NamesAreColonFree(s, Folders);
    IndexOfAfterPlainPrefix(name, payload);
    assert id == name + ([':'] + payload);
    assert id[..|name|] == name;
    SchemeOfName(s);
    assert Resolve<T>(id, None) == Dispatch(name, id);
  }

  /** The favorites and playlists schemes go to that container's getItem, never to a constructor. */
  lemma ContainerSchemesDelegate<T>(payload: string)
    ensures Resolve<T>(SchemeName(Favorite) + ":" + payload, None).Delegate?
    ensures Resolve<T>(SchemeName(Favorite) + ":" + payload, None).owner == Favorites
    ensures Resolve<T>(SchemeName(Playlist) + ":" + payload, None).Delegate?
    ensures Resolve<T>(SchemeName(Playlist) + ":" + payload, None).owner == Playlists
  {
    SchemeResolves<T>(Favorite, payload);
    SchemeResolves<T>(Playlist, payload);
  }

  /** An unrecognised scheme yields null, not an error. */
  lemma UnknownSchemeIsNull<T>(id: string)
    requires ':' in id
    requires forall s :: SchemeName(s) != Prefix(id)
    ensures Resolve<T>(id, None) == Null
  {
  }

  /** Which route a prefixed id takes depends only on the text before its first ':'. */
  lemma DispatchDependsOnlyOnPrefix<T>(a: string, b: string)
    requires ':' in a && ':' in b && Prefix(a) == Prefix(b)
    ensures Resolve<T>(a, None).Null? <==> Resolve<T>(b, None).Null?
    ensures Resolve<T>(a, None).Create? ==> Resolve<T>(b, None) == Create(Resolve<T>(a, None).scheme, b)
    ensures Resolve<T>(a, None).Delegate? ==> Resolve<T>(b, None) == Delegate(Resolve<T>(a, None).owner, b)
  {
  }
}
