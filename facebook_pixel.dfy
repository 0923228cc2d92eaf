/**
 The facade: configuration, four independent event layers, and the guarded
 server-side `send` to the Conversions API.
 */
module Pixel {
  import opened PhpArrays
  import opened EventLayers

  /** The configuration fields, read together. */
  datatype Settings = Settings(enabled: bool, pixelId: string, token: string, sessionKey: string)

  /** `ActionSource::WEBSITE` of the SDK. */
  const Website: string := "website"

  const MissingTokenMessage: string :=
    "You need to set a token in your .env file to use the Conversions API."

  /** The server-side event built by `send`. User and custom data are the SDK objects' fields. */
  datatype ServerEvent = ServerEvent(
    eventName: string,
    eventTime: int,
    sourceUrl: string,
    userData: PhpArray,
    customData: PhpArray,
    actionSource: string)

  /** The request submitted to the pixel `pixelId`, authorised by `accessToken`. */
  datatype EventRequest = EventRequest(pixelId: string, accessToken: string, events: seq<ServerEvent>)

  /**
   What the SDK's `execute()` does with a request: it answers, throws an
   `Exception` (which `send` catches), or throws a PHP `Error` such as a
   `TypeError` (which `catch (Exception $e)` does not catch).
   */
  datatype Execution = Responded(response: Value) | ThrewException(message: string) | ThrewError(message: string)

  /** How `send` ends: it returns (a response or null), or it throws. */
  datatype SendResult = Returned(response: Option<Value>) | Thrown(message: string)

  class FacebookPixel {
    var enabled: bool
    var pixelId: string
    var token: string
    var sessionKey: string
    var eventLayer: EventLayer
    var customEventLayer: EventLayer
    var flashEventLayer: EventLayer
    var inertiaEventLayer: EventLayer

    /** The four layers are distinct objects, so no entry is shared between them. */
    ghost predicate Valid()
      reads this
    {
      && eventLayer != customEventLayer
      && eventLayer != flashEventLayer
      && eventLayer != inertiaEventLayer
      && customEventLayer != flashEventLayer
      && customEventLayer != inertiaEventLayer
      && flashEventLayer != inertiaEventLayer
    }

    ghost function Config(): (r: Settings)
      reads this
    {
      Settings(enabled, pixelId, token, sessionKey)
    }

    /** Configuration comes in as parameters; every layer starts empty. */
    constructor (enabled: bool, pixelId: string, token: string, sessionKey: string)
      ensures Valid()
      ensures Config() == Settings(enabled, pixelId, token, sessionKey)
      ensures fresh(eventLayer) && fresh(customEventLayer) && fresh(flashEventLayer) && fresh(inertiaEventLayer)
      ensures eventLayer.data == map[] && customEventLayer.data == map[]
      ensures flashEventLayer.data == map[] && inertiaEventLayer.data == map[]
    {
      this.enabled := enabled;
      this.pixelId := pixelId;
      this.token := token;
      this.sessionKey := sessionKey;
      eventLayer := new EventLayer();
      customEventLayer := new EventLayer();
      flashEventLayer := new EventLayer();
      inertiaEventLayer := new EventLayer();
    }

    function PixelId(): (r: string)
      reads this
      ensures r == Config().pixelId
    {
      pixelId
    }

    function SessionKey(): (r: string)
      reads this
      ensures r == Config().sessionKey
    {
      sessionKey
    }

    function Token(): (r: string)
      reads this
      ensures r == Config().token
    {
      token
    }

    function IsEnabled(): (r: bool)
      reads this
      ensures r == Config().enabled
    {
      enabled
    }

    method Enable()
      modifies this`enabled
      ensures IsEnabled()
      ensures Config() == old(Config()).(enabled := true)
    {
      enabled := true;
    }

    method Disable()
      modifies this`enabled
      ensures !IsEnabled()
      ensures Config() == old(Config()).(enabled := false)
    {
      enabled := false;
    }

    method SetPixelId(id: string)
      modifies this`pixelId
      ensures PixelId() == id
      ensures Config() == old(Config()).(pixelId := id)
    {
      pixelId := id;
    }

    /** Adds a standard event to the primary layer. */
    method Track(eventName: string, parameters: PhpArray := map[])
      requires Valid() && IsPlainKey(eventName)
      modifies eventLayer
      ensures Valid() && unchanged(this)
      ensures eventLayer.data == Add(old(eventLayer.data), eventName, EntryValue(Entry(parameters, None)))
      ensures unchanged(customEventLayer, flashEventLayer, inertiaEventLayer)
    {
      eventLayer.Set(eventName, parameters);
    }

    /** Adds an event to the custom layer. */
    method TrackCustom(eventName: string, parameters: PhpArray := map[])
      requires Valid() && IsPlainKey(eventName)
      modifies customEventLayer
      ensures Valid() && unchanged(this)
      ensures customEventLayer.data == Add(old(customEventLayer.data), eventName, EntryValue(Entry(parameters, None)))
      ensures unchanged(eventLayer, flashEventLayer, inertiaEventLayer)
    {
      customEventLayer.Set(eventName, parameters);
    }

    /** Adds an event to the flash layer, kept for the next request. */
    method FlashEvent(eventName: string, parameters: PhpArray := map[])
      requires Valid() && IsPlainKey(eventName)
      modifies flashEventLayer
      ensures Valid() && unchanged(this)
      ensures flashEventLayer.data == Add(old(flashEventLayer.data), eventName, EntryValue(Entry(parameters, None)))
      ensures unchanged(eventLayer, customEventLayer, inertiaEventLayer)
    {
      flashEventLayer.Set(eventName, parameters);
    }

    /** Adds an event to the inertia layer, sent to the client in the page payload. */
    method TrackInertia(eventName: string, parameters: PhpArray := map[])
      requires Valid() && IsPlainKey(eventName)
      modifies inertiaEventLayer
      ensures Valid() && unchanged(this)
      ensures inertiaEventLayer.data == Add(old(inertiaEventLayer.data), eventName, EntryValue(Entry(parameters, None)))
      ensures unchanged(eventLayer, customEventLayer, flashEventLayer)
    {
      inertiaEventLayer.Set(eventName, parameters);
    }

    /**
     Submits one event through the Conversions API. The clock reading is
     `now`, and `execute` stands for what the SDK does with the request.
     `submitted` is the request handed to the SDK, if any.
     */
    method Send(eventName: string, sourceUrl: string, userData: PhpArray, customData: PhpArray,
                now: int, execute: EventRequest -> Execution)
      returns (result: SendResult, submitted: Option<EventRequest>)
      ensures !enabled ==> result == Returned(None) && submitted == None
      ensures enabled && IsEmptyString(token) ==> result == Thrown(MissingTokenMessage) && submitted == None
      ensures enabled && !IsEmptyString(token) ==>
                var request := EventRequest(pixelId, token,
                  [ServerEvent(eventName, now, sourceUrl, userData, customData, Website)]);
                && submitted == Some(request)
                && (execute(request).Responded? ==> result == Returned(Some(execute(request).response)))
                && (execute(request).ThrewException? ==> result == Returned(None))
                && (execute(request).ThrewError? ==> result == Thrown(execute(request).message))
      ensures result.Thrown? <==> enabled && (IsEmptyString(token) || (submitted.Some? && execute(submitted.value).ThrewError?))
    {
      if !IsEnabled() {
        return Returned(None), None;
      }
      if IsEmptyString(Token()) {
        return Thrown(MissingTokenMessage), None;
      }
      var event := ServerEvent(eventName, now, sourceUrl, userData, customData, Website);
      var request := EventRequest(PixelId(), token, [event]);
      submitted := Some(request);
      var outcome := execute(request);
      match outcome
      case Responded(response) =>
        result := Returned(Some(response));
      case ThrewException(_) =>
        result := Returned(None);
      case ThrewError(message) =>
        result := Thrown(message);
    }

    /** Merges data restored from the session into the primary layer. */
    method Merge(eventSession: PhpArray)
      requires Valid()
      modifies eventLayer
      ensures Valid() && unchanged(this)
      ensures eventLayer.data == ArrayMerge(old(eventLayer.data), eventSession)
      ensures unchanged(customEventLayer, flashEventLayer, inertiaEventLayer)
    {
      eventLayer.Merge(eventSession);
    }

    /** The live primary layer (the object itself, not a copy). */
    function GetEventLayer(): (r: EventLayer)
      reads this
      ensures r == eventLayer
    {
      eventLayer
    }

    /** The live custom layer. */
    function GetCustomEventLayer(): (r: EventLayer)
      reads this
      ensures r == customEventLayer
    {
      customEventLayer
    }

    /** The live inertia layer. */
    function GetInertiaEventLayer(): (r: EventLayer)
      reads this
      ensures r == inertiaEventLayer
    {
      inertiaEventLayer
    }

    /** A snapshot of the flash layer's entries. */
    function GetFlashedEvent(): (r: PhpArray)
      reads this, flashEventLayer
      ensures r == flashEventLayer.ToArray()
    {
      flashEventLayer.ToArray()
    }

    /**
     Replaces the primary layer with a fresh empty one. The other layers are
     untouched, and a layer object handed out earlier keeps its entries.
     */
    method Clear()
      requires Valid()
      modifies this`eventLayer
      ensures Valid() && Config() == old(Config())
      ensures fresh(eventLayer) && eventLayer.data == map[]
      ensures customEventLayer == old(customEventLayer) && unchanged(customEventLayer)
      ensures flashEventLayer == old(flashEventLayer) && unchanged(flashEventLayer)
      ensures inertiaEventLayer == old(inertiaEventLayer) && unchanged(inertiaEventLayer)
      ensures unchanged(old(eventLayer))
    {
      eventLayer := new EventLayer();
    }
  }

  /** Tracking "Purchase" twice keeps the first parameters: `set` does not overwrite. */
  method TrackTwiceScenario() returns (layer: PhpArray)
    ensures layer == map["Purchase" := EntryValue(Entry(map["value" := Int(10)], None))]
  {
    var pixel := new FacebookPixel(true, "facebook_pixel_id", "", "sessionKey");
    pixel.Track("Purchase", map["value" := Int(10)]);
    pixel.Track("Purchase", map["value" := Int(20)]);
    layer := pixel.GetEventLayer().ToArray();
  }

  /** A flashed event shows in the flash layer and not in the primary layer. */
  method FlashScenario() returns (flashed: PhpArray, primary: PhpArray)
    ensures flashed == map["ViewContent" := EntryValue(Entry(map["id" := Int(5)], None))]
    ensures primary == map[]
  {
    var pixel := new FacebookPixel(true, "facebook_pixel_id", "", "sessionKey");
    pixel.FlashEvent("ViewContent", map["id" := Int(5)]);
    flashed := pixel.GetFlashedEvent();
    primary := pixel.GetEventLayer().ToArray();
  }

  /**
   `toArray` is a copy: a later `set` does not reach it. The layer returned
   by `getEventLayer` is live: a `set` through it is seen by the facade, and
   survives in that object after `clear` replaces the primary layer.
   */
  method ToArraySnapshotScenario() returns (before: PhpArray, after: PhpArray, kept: PhpArray, cleared: PhpArray)
    ensures before == map[]
    ensures after == map["Lead" := EntryValue(Entry(map[], Some("e1")))]
    ensures kept == after
    ensures cleared == map[]
  {
    var pixel := new FacebookPixel(false, "facebook_pixel_id", "", "sessionKey");
    var layer := pixel.GetEventLayer();
    before := layer.ToArray();
    layer.Set("Lead", map[], Some("e1"));
    after := pixel.GetEventLayer().ToArray();
    pixel.Clear();
    kept := layer.ToArray();
    cleared := pixel.GetEventLayer().ToArray();
  }
}
