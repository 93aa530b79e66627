/** The two software images and their flags (activateSoftware, commitSoftware, setExclusiveSoftwareFlag and
    RefreshSoftwareImages of internal/engine/software.go), against the slots the platform really uses. */
module SoftwareImages {
  import opened Sequences
  import opened SoftwareTransfer

  datatype Flags = Flags(active: bool, committed: bool, valid: bool)

  /** The two images, by instance number. */
  datatype Table = Table(first: Flags, second: Flags) {
    function At(image: nat): Flags { if image == 0 then first else second }
    function With(image: nat, flags: Flags): Table { if image == 0 then Table(flags, second) else Table(first, flags) }
  }

  /** One image runs, one is committed, and both of these are valid. */
  predicate Sound(t: Table) {
    && t.first.active != t.second.active && t.first.committed != t.second.committed
    && UsedIsValid(t.first) && UsedIsValid(t.second)
  }

  predicate UsedIsValid(flags: Flags) { flags.active || flags.committed ==> flags.valid }

  /** The images the platform runs and boots. */
  datatype Slots = Slots(running: nat, boot: nat)

  predicate Agrees(t: Table, slots: Slots) {
    slots.running < 2 && slots.boot < 2 && t.At(slots.running).active && t.At(slots.boot).committed
  }

  function Activated(t: Table, selected: nat): Table {
    Table(t.first.(active := selected == 0), t.second.(active := selected == 1))
  }

  function Committed(t: Table, selected: nat): Table {
    Table(t.first.(committed := selected == 0), t.second.(committed := selected == 1))
  }

  datatype Request = Request(entityClass: nat, entityInstance: nat)

  /** What the platform reports of a stored image. */
  datatype StoredImage = StoredImage(entityID: nat, versionLength: nat, productCodeLength: nat, flags: Flags)

  predicate WellFormed(image: StoredImage) {
    image.entityID <= 1 && image.versionLength <= 14 && image.productCodeLength <= 25
    && UsedIsValid(image.flags)
  }

  /** Both images are there, and their flags are sound. */
  predicate Importable(images: seq<StoredImage>) {
    && |images| == 2 && WellFormed(images[0]) && WellFormed(images[1])
    && images[0].entityID != images[1].entityID
    && Sound(TableOf(images))
  }

  function TableOf(images: seq<StoredImage>): Table
    requires |images| == 2
  {
    if images[0].entityID == 0 then Table(images[0].flags, images[1].flags) else Table(images[1].flags, images[0].flags)
  }

  /** The checks of RefreshSoftwareImages. */
  method CheckImages(images: seq<StoredImage>) returns (ok: bool)
    ensures ok <==> Importable(images)
  {
    if |images| != 2 {
      return false;
    }
    var seen: set<nat> := {};
    var active, committed := 0, 0;
    for i := 0 to |images|
      invariant forall k :: 0 <= k < i ==> WellFormed(images[k])
      invariant seen == set k | 0 <= k < i :: images[k].entityID
      invariant i == 2 ==> images[0].entityID != images[1].entityID
      invariant active == Count(images, i, (image: StoredImage) => image.flags.active)
      invariant committed == Count(images, i, (image: StoredImage) => image.flags.committed)
    {
      var image := images[i];
      if image.entityID > 1 || image.versionLength > 14 || image.productCodeLength > 25 || image.entityID in seen {
        return false;
      }
      seen := seen + {image.entityID};
      if image.flags.active {
        active := active + 1;
      }
      if image.flags.committed {
        committed := committed + 1;
      }
      if (image.flags.active || image.flags.committed) && !image.flags.valid {
        return false;
      }
    }
    ok := active == 1 && committed == 1;
  }

  function Count(images: seq<StoredImage>, n: nat, has: StoredImage -> bool): nat
    requires n <= |images|
  {
    if n == 0 then 0 else Count(images, n - 1, has) + if has(images[n - 1]) then 1 else 0
  }

  lemma ExclusiveKeepsSound(t: Table, selected: nat)
    requires Sound(t) && selected < 2 && t.At(selected).valid
    ensures Sound(Activated(t, selected)) && Sound(Committed(t, selected))
    ensures t.At(selected).active ==> Activated(t, selected) == t
    ensures t.At(selected).committed ==> Committed(t, selected) == t
  {}

  class ImageTable {
    const available: bool  // a platform controller is present
    const factory: Table
    var images: Table
    var downloading: Option<nat>
    ghost var slots: Slots

    ghost predicate Valid()
      reads this
    {
      Sound(images) && Sound(factory) && slots.running < 2 && slots.boot < 2
    }

    /** The MIB starts from the factory's flags and then takes over those of the platform. */
    constructor (available: bool, factory: Table, stored: seq<StoredImage>)
      requires Sound(factory) && Importable(stored)
      ensures Valid() && this.factory == factory && images == TableOf(stored) && Agrees(images, slots)
      ensures this.available == available && downloading == None
    {
      this.available, this.factory, images, downloading := available, factory, TableOf(stored), None;
      var t := TableOf(stored);
      slots := Slots(if t.first.active then 0 else 1, if t.first.committed then 0 else 1);
    }

    predicate Selectable(request: Request)
      reads this
    {
      && available && downloading.None? && request.entityClass == SOFTWARE_IMAGE_CLASS && request.entityInstance <= 1
      && images.At(request.entityInstance).valid
    }

    /** The value of a flag for each image: set for the selected one, clear for the other. */
    method ExclusiveFlag(selected: nat) returns (updates: map<nat, bool>)
      ensures updates == map[0 := selected == 0, 1 := selected == 1]
    {
      updates := map[];
      for image := 0 to 2
        invariant forall i :: i in updates <==> 0 <= i < image
        invariant forall i :: i in updates ==> updates[i] == (selected == i)
      {
        updates := updates[image := selected == image];
      }
    }

    /** The platform's transaction and the MIB change together or not at all. */
    method Activate(request: Request, prepares: bool, accepted: bool) returns (result: Reply)
      requires Valid()
      modifies `images, `slots
      ensures Valid()
      ensures result == Success <==> old(Selectable(request)) && prepares && accepted
      ensures result == Success ==>
                images == Activated(old(images), request.entityInstance)
                && slots == old(slots).(running := request.entityInstance)
      ensures result != Success ==> images == old(images) && slots == old(slots)
      ensures old(Agrees(images, slots)) ==> Agrees(images, slots)
    {
      if !available {
        return NotSupported;
      }
      if downloading.Some? {
        return DeviceBusy;
      }
      if request.entityClass != SOFTWARE_IMAGE_CLASS {
        return UnknownEntity;
      }
      if request.entityInstance > 1 {
        return UnknownInstance;
      }
      if !images.At(request.entityInstance).valid {
        return ParameterError;
      }
      if !prepares {
        return ProcessingError;
      }
      var updates := ExclusiveFlag(request.entityInstance);
      if !accepted {
        return ProcessingError;
      }
      ExclusiveKeepsSound(images, request.entityInstance);
      images := Table(images.first.(active := updates[0]), images.second.(active := updates[1]));
      slots := slots.(running := request.entityInstance);
      result := Success;
    }

    /** An image the MIB shows as committed is not committed again: the platform is not asked. */
    method Commit(request: Request, prepares: bool, accepted: bool) returns (result: Reply)
      requires Valid()
      modifies `images, `slots
      ensures Valid()
      ensures result == Success <==>
                old(Selectable(request)) && (old(images).At(request.entityInstance).committed || (prepares && accepted))
      ensures result == Success ==> images == Committed(old(images), request.entityInstance)
      ensures slots == if result == Success && !old(images).At(request.entityInstance).committed
                       then old(slots).(boot := request.entityInstance) else old(slots)
      ensures result != Success ==> images == old(images)
      ensures old(Agrees(images, slots)) ==>
                Agrees(images, slots) && (result == Success ==> slots.boot == request.entityInstance)
    {
      if !available {
        return NotSupported;
      }
      if downloading.Some? {
        return DeviceBusy;
      }
      if request.entityClass != SOFTWARE_IMAGE_CLASS {
        return UnknownEntity;
      }
      if request.entityInstance > 1 {
        return UnknownInstance;
      }
      var flags := images.At(request.entityInstance);
      if !flags.valid {
        return ParameterError;
      }
      ExclusiveKeepsSound(images, request.entityInstance);
      if flags.committed {
        return Success;
      }
      if !prepares {
        return ProcessingError;
      }
      var updates := ExclusiveFlag(request.entityInstance);
      if !accepted {
        return ProcessingError;
      }
      images := Table(images.first.(committed := updates[0]), images.second.(committed := updates[1]));
      slots := slots.(boot := request.entityInstance);
      result := Success;
    }

    /** An eligible download marks its image invalid before the first section arrives. Neither the running
        nor the boot image of the platform is overwritten as long as the MIB agrees with the platform. */
    method StartDownload(image: nat, starts: bool, accepted: bool) returns (ok: bool)
      requires Valid() && image < 2
      modifies `images, `downloading
      ensures Valid()
      ensures ok <==> old(available && downloading.None? && !images.At(image).active && !images.At(image).committed)
                      && starts && accepted
      ensures ok ==>
                images == old(images).With(image, old(images).At(image).(valid := false)) && downloading == Some(image)
      ensures !ok ==> images == old(images) && downloading == old(downloading)
      ensures ok && old(Agrees(images, slots)) ==> image != slots.running && image != slots.boot
      ensures old(Agrees(images, slots)) ==> Agrees(images, slots)
    {
      ok := false;
      if !available || downloading.Some? {
        return;
      }
      var flags := images.At(image);
      if flags.active || flags.committed || !starts || !accepted {
        return;
      }
      images := images.With(image, flags.(valid := false));
      downloading := Some(image);
      ok := true;
    }

    /** The end of a download: a complete image becomes valid, a failed one stays as it is. */
    method EndDownload(complete: bool)
      requires Valid() && downloading.Some? && downloading.value < 2
      modifies `images, `downloading
      ensures Valid() && downloading == None
      ensures var image := old(downloading).value;
        images == if complete then old(images).With(image, old(images).At(image).(valid := true)) else old(images)
      ensures Agrees(images, slots) <==> old(Agrees(images, slots))
    {
      if complete {
        var image := downloading.value;
        images := images.With(image, images.At(image).(valid := true));
      }
      downloading := None;
    }

    /** A MIB reset brings the factory's flags back. It keeps the agreement with the platform exactly when the
        platform runs and boots the images the factory names. */
    method ResetMib()
      requires Valid()
      modifies `images
      ensures Valid() && images == factory
      ensures Agrees(images, slots) <==> factory.At(slots.running).active && factory.At(slots.boot).committed
    {
      images := factory;
    }

    /** Every step succeeds: a valid image that the factory does not name is activated and committed, the MIB
        is reset, a commit of the other image succeeds although the platform keeps booting the first one,
        and then the download that overwrites the running image starts. */
    method RunningImageIsOverwritten(image: nat)
      requires Valid() && Agrees(images, slots) && available && downloading.None? && image < 2
      requires images.At(image).valid && !factory.At(image).active && !factory.At(image).committed
      modifies `images, `slots, `downloading
      ensures Valid() && slots == Slots(image, image)
      ensures downloading == Some(slots.running) && !images.At(slots.running).valid
      ensures images.At(1 - image).committed && !Agrees(images, slots)
    {
      var selected := Request(SOFTWARE_IMAGE_CLASS, image);
      var activated := Activate(selected, true, true);
      var committed := Commit(selected, true, true);
      assert slots == Slots(image, image);
      ResetMib();
      ghost var before := slots;
      var again := Commit(Request(SOFTWARE_IMAGE_CLASS, 1 - image), true, true);
      assert again == Success && slots == before;
      var started := StartDownload(image, true, true);
      assert started;
    }
  }

  /** After image 1 was activated and committed, a MIB reset that names image 0 makes the running image 1
      eligible for a download, and a commit of image 0 succeeds without reaching the platform. */
  lemma ResetForgetsSelection(stored: Table, factory: Table)
    requires Sound(stored) && stored.second.valid && Sound(factory) && factory.first.active && factory.first.committed
    ensures var slots := Slots(1, 1);
      && Agrees(Committed(Activated(stored, 1), 1), slots)
      && !Agrees(factory, slots)
      && !factory.At(slots.running).active && !factory.At(slots.boot).committed
      && factory.At(0).committed && factory.At(0).valid
  {
    ExclusiveKeepsSound(stored, 1);
    assert factory.At(0) == factory.first && factory.At(1) == factory.second;
  }
}
