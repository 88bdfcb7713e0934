/** The generated builder of 'resource' objects of the accounts-management API
    (an identified computing resource). Go pointer fields become Option values:
    None is nil. `Copy` and `Build` copy the pointers themselves, so after them a
    builder and an object share the values pointed to. Nothing writes through
    those pointers, though: every setter replaces its pointer with a fresh one to
    its argument. A shared value therefore never changes, and value semantics
    describe the builder faithfully.
 */
module Resources {
  import opened Wrappers

  /** A 'resource' object: the six fields the builder reads and writes. */
  datatype Resource = Resource(
    id: Option<string>,
    href: Option<string>,
    link: bool,
    allowed: Option<int>,
    resourceName: Option<string>,
    resourceType: Option<string>)

  /** The builder's state: one slot per field of the object. */
  datatype ResourceBuilder = ResourceBuilder(
    id: Option<string>,
    href: Option<string>,
    link: bool,
    allowed: Option<int>,
    resourceName: Option<string>,
    resourceType: Option<string>)

  /** The error a build could report; the builder never produces one. */
  datatype BuildError = BuildError(message: string)

  /** The zero-valued object a build starts from: every pointer nil, `link` false. */
  const ZeroResource: Resource := Resource(None, None, false, None, None, None)

  /** A fresh builder: every optional field absent and `link` false. */
  function NewResource(): (b: ResourceBuilder)
    ensures b.id.None? && b.href.None? && b.allowed.None?
    ensures b.resourceName.None? && b.resourceType.None?
    ensures !b.link
  {
    ResourceBuilder(None, None, false, None, None, None)
  }

  // ---------------------------------------------------------------------------
  // Setters: each sets its own field and leaves the other five as they were
  // ---------------------------------------------------------------------------

  function ID(b: ResourceBuilder, value: string): (r: ResourceBuilder)
    ensures r.id == Some(value)
    ensures r.href == b.href && r.link == b.link && r.allowed == b.allowed
    ensures r.resourceName == b.resourceName && r.resourceType == b.resourceType
  {
    b.(id := Some(value))
  }

  function HREF(b: ResourceBuilder, value: string): (r: ResourceBuilder)
    ensures r.href == Some(value)
    ensures r.id == b.id && r.link == b.link && r.allowed == b.allowed
    ensures r.resourceName == b.resourceName && r.resourceType == b.resourceType
  {
    b.(href := Some(value))
  }

  function Link(b: ResourceBuilder, value: bool): (r: ResourceBuilder)
    ensures r.link == value
    ensures r.id == b.id && r.href == b.href && r.allowed == b.allowed
    ensures r.resourceName == b.resourceName && r.resourceType == b.resourceType
  {
    b.(link := value)
  }

  function Allowed(b: ResourceBuilder, value: int): (r: ResourceBuilder)
    ensures r.allowed == Some(value)
    ensures r.id == b.id && r.href == b.href && r.link == b.link
    ensures r.resourceName == b.resourceName && r.resourceType == b.resourceType
  {
    b.(allowed := Some(value))
  }

  function ResourceName(b: ResourceBuilder, value: string): (r: ResourceBuilder)
    ensures r.resourceName == Some(value)
    ensures r.id == b.id && r.href == b.href && r.link == b.link
    ensures r.allowed == b.allowed && r.resourceType == b.resourceType
  {
    b.(resourceName := Some(value))
  }

  function ResourceType(b: ResourceBuilder, value: string): (r: ResourceBuilder)
    ensures r.resourceType == Some(value)
    ensures r.id == b.id && r.href == b.href && r.link == b.link
    ensures r.allowed == b.allowed && r.resourceName == b.resourceName
  {
    b.(resourceType := Some(value))
  }

  /** Setting a field twice leaves only the second value. */
  lemma LastWriteWins(b: ResourceBuilder, s1: string, s2: string, n1: int, n2: int, f1: bool, f2: bool)
    ensures ID(ID(b, s1), s2) == ID(b, s2)
    ensures HREF(HREF(b, s1), s2) == HREF(b, s2)
    ensures Link(Link(b, f1), f2) == Link(b, f2)
    ensures Allowed(Allowed(b, n1), n2) == Allowed(b, n2)
    ensures ResourceName(ResourceName(b, s1), s2) == ResourceName(b, s2)
    ensures ResourceType(ResourceType(b, s1), s2) == ResourceType(b, s2)
  {
  }

  /** Setters of different fields can be applied in either order. */
  lemma SettersCommute(b: ResourceBuilder, id: string, href: string, link: bool, allowed: int, name: string, kind: string)
    ensures HREF(ID(b, id), href) == ID(HREF(b, href), id)
    ensures Link(ID(b, id), link) == ID(Link(b, link), id)
    ensures Allowed(ID(b, id), allowed) == ID(Allowed(b, allowed), id)
    ensures ResourceName(ID(b, id), name) == ID(ResourceName(b, name), id)
    ensures ResourceType(ID(b, id), kind) == ID(ResourceType(b, kind), id)
    ensures Link(HREF(b, href), link) == HREF(Link(b, link), href)
    ensures Allowed(HREF(b, href), allowed) == HREF(Allowed(b, allowed), href)
    ensures ResourceName(HREF(b, href), name) == HREF(ResourceName(b, name), href)
    ensures ResourceType(HREF(b, href), kind) == HREF(ResourceType(b, kind), href)
    ensures Allowed(Link(b, link), allowed) == Link(Allowed(b, allowed), link)
    ensures ResourceName(Link(b, link), name) == Link(ResourceName(b, name), link)
    ensures ResourceType(Link(b, link), kind) == Link(ResourceType(b, kind), link)
    ensures ResourceName(Allowed(b, allowed), name) == Allowed(ResourceName(b, name), allowed)
    ensures ResourceType(Allowed(b, allowed), kind) == Allowed(ResourceType(b, kind), allowed)
    ensures ResourceType(ResourceName(b, name), kind) == ResourceName(ResourceType(b, kind), name)
  {
  }

  // ---------------------------------------------------------------------------
  // Copy and Build
  // ---------------------------------------------------------------------------

  /** Loads every field of `obj` into the builder, discarding what was set
      before; a nil object leaves the builder as it was. */
  function Copy(b: ResourceBuilder, obj: Option<Resource>): (r: ResourceBuilder)
    ensures obj.None? ==> r == b
    ensures obj.Some? ==>
      && r.id == obj.value.id && r.href == obj.value.href
      && r.link == obj.value.link && r.allowed == obj.value.allowed
      && r.resourceName == obj.value.resourceName && r.resourceType == obj.value.resourceType
  {
    match obj
    case None => b
    case Some(o) => b.(id := o.id, href := o.href, link := o.link, allowed := o.allowed,
                       resourceName := o.resourceName, resourceType := o.resourceType)
  }

  /** Creates an object from the builder's fields. Starting from the zero object,
      the last three fields are written only when the builder holds a value, which
      leaves a nil field nil; so the object's fields always equal the builder's. */
  function Build(b: ResourceBuilder): (r: Result<Resource, BuildError>)
    ensures r.Success?
    ensures r.value.id == b.id && r.value.href == b.href && r.value.link == b.link
    ensures r.value.allowed == b.allowed && r.value.resourceName == b.resourceName
    ensures r.value.resourceType == b.resourceType
  {
    var obj := ZeroResource.(id := b.id, href := b.href, link := b.link);
    var obj := if b.allowed.Some? then obj.(allowed := b.allowed) else obj;
    var obj := if b.resourceName.Some? then obj.(resourceName := b.resourceName) else obj;
    var obj := if b.resourceType.Some? then obj.(resourceType := b.resourceType) else obj;
    Success(obj)
  }

  /** Copying a non-nil object and building gives back that object, whatever the
      builder held before. */
  lemma CopyBuildRoundTrip(b: ResourceBuilder, o: Resource)
    ensures Build(Copy(b, Some(o))) == Success(o)
  {
  }

  /** Building and copying the result back gives the builder that was built. */
  lemma BuildCopyRoundTrip(b: ResourceBuilder, other: ResourceBuilder)
    ensures Copy(other, Some(Build(b).value)) == b
  {
  }

  /** A fresh builder builds the zero object. */
  lemma NewResourceBuildsZero()
    ensures Build(NewResource()) == Success(ZeroResource)
  {
  }

  /** Applies, to a fresh builder, the setter of every field `o` holds a value
      for, in the order the fields are declared. */
  function SetAll(o: Resource): ResourceBuilder {
    var b := NewResource();
    var b := if o.id.Some? then ID(b, o.id.value) else b;
    var b := if o.href.Some? then HREF(b, o.href.value) else b;
    var b := Link(b, o.link);
    var b := if o.allowed.Some? then Allowed(b, o.allowed.value) else b;
    var b := if o.resourceName.Some? then ResourceName(b, o.resourceName.value) else b;
    if o.resourceType.Some? then ResourceType(b, o.resourceType.value) else b
  }

  /** Copy from any builder yields the same builder as setting, on a fresh one,
      exactly the fields the object holds: copy carries no trace of earlier writes,
      and every object can be produced with the setters alone. */
  lemma CopyIsFreshSetters(b: ResourceBuilder, o: Resource)
    ensures Copy(b, Some(o)) == SetAll(o)
    ensures Build(SetAll(o)) == Success(o)
  {
  }
}
