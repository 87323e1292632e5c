/** Values shared by the resource normalizer and the crawler data provider:
    PHP option values, the resources a container can carry, and the
    context and resource-meta records the host bundle hands over. */
module Resources {

  datatype Option<+T> = None | Some(value: T)

  datatype Result<+T, +E> = Ok(value: T) | Err(error: E)

  /** A PHP value as it appears in option arrays and container attributes. */
  datatype Value =
    | Null
    | Bool(b: bool)
    | Int(i: int)
    | Str(s: string)
    | List(items: seq<Value>)
    | Dict(entries: map<string, Value>)

  /** The concrete Pimcore class of an element, only as finely as the
      normalizer's and the provider's `instanceof` checks tell them apart.
      In Pimcore's class hierarchy the three families are disjoint. */
  datatype ElementKind =
    | Page             // Document\Page
    | OtherDocument    // any other Document: snippet, link, email, folder, ...
    | AssetDocument    // Asset\Document
    | OtherAsset       // any other Asset: image, video, folder, ...
    | Concrete         // DataObject\Concrete
    | OtherDataObject  // any other DataObject: an object folder

  predicate IsDocument(k: ElementKind) { k.Page? || k.OtherDocument? }

  predicate IsAsset(k: ElementKind) { k.AssetDocument? || k.OtherAsset? }

  predicate IsDataObject(k: ElementKind) { k.Concrete? || k.OtherDataObject? }

  /** A resource fetched by the spider library (VDB\Spider\Resource). */
  datatype SpiderResource = SpiderResource(uri: string)

  /** What a resource container may hold: a spider resource, a Pimcore
      element (ElementInterface) or anything else (null included). */
  datatype Resource =
    | Spider(spider: SpiderResource)
    | Element(kind: ElementKind, id: int)
    | NotAnElement(typeName: string)

  /** A resource container: the resource and its attribute array.
      `HasAttribute` is taken to be key presence; ResourceContainer itself
      is not part of this model. */
  datatype ResourceContainer = ResourceContainer(resource: Resource, attributes: map<string, Value>)
  {
    predicate HasAttribute(name: string) { name in attributes }
  }

  /** The resource meta handed to single provisioning: an id and the
      resource options array. */
  datatype ResourceMeta = ResourceMeta(documentId: Value, resourceOptions: map<string, Value>)

  /** The context definition: only its name and dispatch type are read. */
  datatype ContextDefinition = ContextDefinition(name: string, dispatchType: string)
}
