/**
 * The equipment catalogue as the planner page holds it after loading it from
 * the server, and the lookup of the item a drop-down currently selects.
 *
 * Screens and mounts carry flat width/height/depth fields; media players and
 * receptacle boxes carry them nested in a `dimensions` record, exactly as the
 * server builds the records.
 */
module Equipment {
  import opened Wrappers

  datatype Dimensions = Dimensions(width: real, height: real, depth: real)

  datatype Screen = Screen(id: string, model: string, width: real, height: real, depth: real, weight: Option<real>)

  datatype Mount = Mount(id: string, model: string, maxWeight: real, width: real, height: real, depth: real,
                         vesa: seq<string>)

  datatype MediaPlayer = MediaPlayer(id: string, model: string, dimensions: Dimensions)

  datatype Receptacle = Receptacle(id: string, model: string, dimensions: Dimensions)

  datatype Category = Screens | Mounts | MediaPlayers | Receptacles

  /** Any catalogue record; the category it belongs to is its constructor. */
  datatype Item =
    | ScreenItem(screen: Screen)
    | MountItem(mount: Mount)
    | MediaPlayerItem(player: MediaPlayer)
    | ReceptacleItem(receptacle: Receptacle)
  {
    function Id(): string {
      match this
      case ScreenItem(s) => s.id
      case MountItem(m) => m.id
      case MediaPlayerItem(p) => p.id
      case ReceptacleItem(r) => r.id
    }

    function Kind(): Category {
      match this
      case ScreenItem(_) => Screens
      case MountItem(_) => Mounts
      case MediaPlayerItem(_) => MediaPlayers
      case ReceptacleItem(_) => Receptacles
    }
  }

  /** The client's `equipmentData`: one list per category. */
  datatype Catalog = Catalog(screens: seq<Screen>, mounts: seq<Mount>, mediaPlayers: seq<MediaPlayer>,
                             receptacles: seq<Receptacle>)

  /** The drop-down id to category table. */
  function CategoryOf(selectId: string): Option<Category> {
    if selectId == "screenModel" then Some(Screens)
    else if selectId == "mountType" then Some(Mounts)
    else if selectId == "mediaPlayer" then Some(MediaPlayers)
    else if selectId == "receptacle" then Some(Receptacles)
    else None
  }

  /** The list of one category, as catalogue items. */
  function Items(data: Catalog, c: Category): (items: seq<Item>)
    ensures forall i :: 0 <= i < |items| ==> items[i].Kind() == c
    ensures c == Screens ==>
              |items| == |data.screens| && forall i {:trigger items[i]} :: 0 <= i < |items| ==> items[i] == ScreenItem(data.screens[i])
    ensures c == Mounts ==>
              |items| == |data.mounts| && forall i {:trigger items[i]} :: 0 <= i < |items| ==> items[i] == MountItem(data.mounts[i])
    ensures c == MediaPlayers ==>
              && |items| == |data.mediaPlayers|
              && forall i {:trigger items[i]} :: 0 <= i < |items| ==> items[i] == MediaPlayerItem(data.mediaPlayers[i])
    ensures c == Receptacles ==>
              && |items| == |data.receptacles|
              && forall i {:trigger items[i]} :: 0 <= i < |items| ==> items[i] == ReceptacleItem(data.receptacles[i])
  {
    match c
    case Screens => seq(|data.screens|, i requires 0 <= i < |data.screens| => ScreenItem(data.screens[i]))
    case Mounts => seq(|data.mounts|, i requires 0 <= i < |data.mounts| => MountItem(data.mounts[i]))
    case MediaPlayers =>
      seq(|data.mediaPlayers|, i requires 0 <= i < |data.mediaPlayers| => MediaPlayerItem(data.mediaPlayers[i]))
    case Receptacles =>
      seq(|data.receptacles|, i requires 0 <= i < |data.receptacles| => ReceptacleItem(data.receptacles[i]))
  }

  /** Index i holds the first item whose id is `value`. */
  ghost predicate IsFirstMatch(items: seq<Item>, value: string, i: int) {
    && 0 <= i < |items|
    && items[i].Id() == value
    && forall j :: 0 <= j < i ==> items[j].Id() != value
  }

  /** `Array.prototype.find` with the predicate `item.id === value`. */
  function FindById(items: seq<Item>, value: string): (r: Option<Item>)
    ensures r.None? <==> forall i :: 0 <= i < |items| ==> items[i].Id() != value
    ensures r.Some? ==> exists i :: IsFirstMatch(items, value, i) && items[i] == r.value
  {
    if items == [] then None
    else if items[0].Id() == value then
      assert IsFirstMatch(items, value, 0);
      Some(items[0])
    else
      var r := FindById(items[1..], value);
      assert r.Some? ==> exists i :: IsFirstMatch(items, value, i) && items[i] == r.value by {
        if r.Some? {
          var k :| IsFirstMatch(items[1..], value, k) && items[1..][k] == r.value;
          assert IsFirstMatch(items, value, k + 1);
        }
      }
      r
  }

  /**
   * The item selected in drop-down `selectId`: nothing when the drop-down is
   * missing or its value is empty, or when the id names no category;
   * otherwise the first item of that category whose id is the value, if any.
   */
  function GetSelectedEquipment(data: Catalog, selects: map<string, string>, selectId: string): (r: Option<Item>)
    ensures (selectId !in selects || selects[selectId] == "" || CategoryOf(selectId).None?) ==> r.None?
    ensures selectId in selects && selects[selectId] != "" && CategoryOf(selectId).Some? ==>
              var items := Items(data, CategoryOf(selectId).value);
              && (r.None? <==> forall i :: 0 <= i < |items| ==> items[i].Id() != selects[selectId])
              && (r.Some? ==> r.value.Kind() == CategoryOf(selectId).value
                              && exists i :: IsFirstMatch(items, selects[selectId], i) && items[i] == r.value)
  {
    if selectId !in selects || selects[selectId] == "" then None
    else match CategoryOf(selectId)
      case None => None
      case Some(c) => FindById(Items(data, c), selects[selectId])
  }

  /** The selected screen, typed. */
  function SelectedScreen(data: Catalog, selects: map<string, string>): (r: Option<Screen>)
    ensures r.None? <==> GetSelectedEquipment(data, selects, "screenModel").None?
    ensures r.Some? ==> GetSelectedEquipment(data, selects, "screenModel") == Some(ScreenItem(r.value))
                        && r.value in data.screens
  {
    match GetSelectedEquipment(data, selects, "screenModel")
    case Some(ScreenItem(s)) => Some(s)
    case _ => None
  }

  /** The selected mount, typed. */
  function SelectedMount(data: Catalog, selects: map<string, string>): (r: Option<Mount>)
    ensures r.None? <==> GetSelectedEquipment(data, selects, "mountType").None?
    ensures r.Some? ==> GetSelectedEquipment(data, selects, "mountType") == Some(MountItem(r.value))
                        && r.value in data.mounts
  {
    match GetSelectedEquipment(data, selects, "mountType")
    case Some(MountItem(m)) => Some(m)
    case _ => None
  }

  /** The selected media player, typed. */
  function SelectedMediaPlayer(data: Catalog, selects: map<string, string>): (r: Option<MediaPlayer>)
    ensures r.None? <==> GetSelectedEquipment(data, selects, "mediaPlayer").None?
    ensures r.Some? ==> GetSelectedEquipment(data, selects, "mediaPlayer") == Some(MediaPlayerItem(r.value))
                        && r.value in data.mediaPlayers
  {
    match GetSelectedEquipment(data, selects, "mediaPlayer")
    case Some(MediaPlayerItem(p)) => Some(p)
    case _ => None
  }

  /** The selected receptacle box, typed. */
  function SelectedReceptacle(data: Catalog, selects: map<string, string>): (r: Option<Receptacle>)
    ensures r.None? <==> GetSelectedEquipment(data, selects, "receptacle").None?
    ensures r.Some? ==> GetSelectedEquipment(data, selects, "receptacle") == Some(ReceptacleItem(r.value))
                        && r.value in data.receptacles
  {
    match GetSelectedEquipment(data, selects, "receptacle")
    case Some(ReceptacleItem(b)) => Some(b)
    case _ => None
  }

  /**
   * With a non-empty screen drop-down, the selected screen is the first
   * catalogue screen whose id is the drop-down's value, and there is none
   * exactly when no screen has that id.
   */
  lemma SelectedScreenIsFirst(data: Catalog, selects: map<string, string>)
    requires "screenModel" in selects && selects["screenModel"] != ""
    ensures var v := selects["screenModel"];
            var r := SelectedScreen(data, selects);
            && (r.None? <==> forall i :: 0 <= i < |data.screens| ==> data.screens[i].id != v)
            && (r.Some? ==> exists i :: && 0 <= i < |data.screens| && data.screens[i] == r.value
                                        && data.screens[i].id == v
                                        && forall j :: 0 <= j < i ==> data.screens[j].id != v)
  {
    var v := selects["screenModel"];
    var items := Items(data, Screens);
    var r := SelectedScreen(data, selects);
    assert forall i :: 0 <= i < |items| ==> items[i].Id() == data.screens[i].id;
    if r.Some? {
      var i :| IsFirstMatch(items, v, i) && items[i] == ScreenItem(r.value);
      assert data.screens[i] == r.value;
    }
  }

  /** The same for the mount drop-down and the mount list. */
  lemma SelectedMountIsFirst(data: Catalog, selects: map<string, string>)
    requires "mountType" in selects && selects["mountType"] != ""
    ensures var v := selects["mountType"];
            var r := SelectedMount(data, selects);
            && (r.None? <==> forall i :: 0 <= i < |data.mounts| ==> data.mounts[i].id != v)
            && (r.Some? ==> exists i :: && 0 <= i < |data.mounts| && data.mounts[i] == r.value
                                        && data.mounts[i].id == v
                                        && forall j :: 0 <= j < i ==> data.mounts[j].id != v)
  {
    var v := selects["mountType"];
    var items := Items(data, Mounts);
    var r := SelectedMount(data, selects);
    assert forall i :: 0 <= i < |items| ==> items[i].Id() == data.mounts[i].id;
    if r.Some? {
      var i :| IsFirstMatch(items, v, i) && items[i] == MountItem(r.value);
      assert data.mounts[i] == r.value;
    }
  }

  /** The same for the media player drop-down and the media player list. */
  lemma SelectedMediaPlayerIsFirst(data: Catalog, selects: map<string, string>)
    requires "mediaPlayer" in selects && selects["mediaPlayer"] != ""
    ensures var v := selects["mediaPlayer"];
            var r := SelectedMediaPlayer(data, selects);
            && (r.None? <==> forall i :: 0 <= i < |data.mediaPlayers| ==> data.mediaPlayers[i].id != v)
            && (r.Some? ==> exists i :: && 0 <= i < |data.mediaPlayers| && data.mediaPlayers[i] == r.value
                                        && data.mediaPlayers[i].id == v
                                        && forall j :: 0 <= j < i ==> data.mediaPlayers[j].id != v)
  {
    var v := selects["mediaPlayer"];
    var items := Items(data, MediaPlayers);
    var r := SelectedMediaPlayer(data, selects);
    assert forall i :: 0 <= i < |items| ==> items[i].Id() == data.mediaPlayers[i].id;
    if r.Some? {
      var i :| IsFirstMatch(items, v, i) && items[i] == MediaPlayerItem(r.value);
      assert data.mediaPlayers[i] == r.value;
    }
  }

  /** The same for the receptacle drop-down and the receptacle list. */
  lemma SelectedReceptacleIsFirst(data: Catalog, selects: map<string, string>)
    requires "receptacle" in selects && selects["receptacle"] != ""
    ensures var v := selects["receptacle"];
            var r := SelectedReceptacle(data, selects);
            && (r.None? <==> forall i :: 0 <= i < |data.receptacles| ==> data.receptacles[i].id != v)
            && (r.Some? ==> exists i :: && 0 <= i < |data.receptacles| && data.receptacles[i] == r.value
                                        && data.receptacles[i].id == v
                                        && forall j :: 0 <= j < i ==> data.receptacles[j].id != v)
  {
    var v := selects["receptacle"];
    var items := Items(data, Receptacles);
    var r := SelectedReceptacle(data, selects);
    assert forall i :: 0 <= i < |items| ==> items[i].Id() == data.receptacles[i].id;
    if r.Some? {
      var i :| IsFirstMatch(items, v, i) && items[i] == ReceptacleItem(r.value);
      assert data.receptacles[i] == r.value;
    }
  }
}
