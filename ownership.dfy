/**
 * The ownership check of controller/state.go: whether a live object really
 * belongs to this application, judged by its tracking id.
 */
module Ownership {
  import opened Wrappers
  import opened Resources

  /** A tracking id: the application and the identity of the object it was applied to. */
  datatype AppInstanceValue = AppInstanceValue(applicationName: string, group: string, kind: string, namespace: string, name: string)

  /** The tracking methods are strings in the settings; only this one carries no object identity. */
  const TrackingMethodLabel := "label"

  /** The tracking id the desired object would get for this application (no namespace override). */
  function DesiredInstanceValue(config: Obj, appName: string): (v: AppInstanceValue)
    ensures v.applicationName == appName
    ensures v.group == config.group && v.kind == config.kind && v.namespace == config.namespace && v.name == config.name
  {
    AppInstanceValue(appName, config.group, config.kind, config.namespace, config.name)
  }

  /**
   * A tracking id matches an object when name, group and kind agree and the
   * object's namespace is the id's or empty (cluster-scoped objects carry the
   * destination namespace in their id).
   */
  predicate MatchesTrackingId(obj: Obj, aiv: AppInstanceValue)
  {
    && (obj.namespace == aiv.namespace || obj.namespace == "")
    && obj.name == aiv.name
    && obj.group == aiv.group
    && obj.kind == aiv.kind
  }

  /**
   * Whether a live object is managed by the application. The tracking id is the
   * desired object's when there is one, else the one recorded on the live object
   * (appInstanceOf reads it, per tracking method and installation id).
   */
  function IsSelfReferenced(live: Option<Obj>, config: Option<Obj>, appName: string, trackingMethod: string,
                            appInstanceOf: Obj -> Option<AppInstanceValue>): (r: bool)
    ensures live.None? ==> r
    ensures trackingMethod == TrackingMethodLabel ==> r
    ensures live.Some? && trackingMethod != TrackingMethodLabel && config.Some? ==>
              (r <==> && (live.value.namespace == config.value.namespace || live.value.namespace == "")
                      && live.value.name == config.value.name
                      && live.value.group == config.value.group
                      && live.value.kind == config.value.kind)
    ensures live.Some? && trackingMethod != TrackingMethodLabel && config.None? ==>
              (r <==> appInstanceOf(live.value).None? || MatchesTrackingId(live.value, appInstanceOf(live.value).value))
  {
    if live.None? then true
    else if trackingMethod == TrackingMethodLabel then true
    else if config.Some? then MatchesTrackingId(live.value, DesiredInstanceValue(config.value, appName))
    else
      match appInstanceOf(live.value)
      case Some(aiv) => MatchesTrackingId(live.value, aiv)
      case None => true
  }

  /**
   * A tracking id copied onto an object with another name (the shared-resource
   * case) does not make that object this application's.
   */
  lemma CopiedTrackingIdIsRejected(live: Obj, appName: string, trackingMethod: string,
                                   appInstanceOf: Obj -> Option<AppInstanceValue>)
    requires trackingMethod != TrackingMethodLabel
    requires appInstanceOf(live).Some? && appInstanceOf(live).value.name != live.name
    ensures !IsSelfReferenced(Some(live), None, appName, trackingMethod, appInstanceOf)
  {
  }

  /**
   * The desired object decides the id: a live object whose group differs from
   * the desired one (an API-group upgrade) is not owned, even if its recorded id
   * matches it.
   */
  lemma DesiredObjectOverridesRecordedId(live: Obj, config: Obj, appName: string, trackingMethod: string,
                                         appInstanceOf: Obj -> Option<AppInstanceValue>)
    requires trackingMethod != TrackingMethodLabel
    requires live.group != config.group
    ensures !IsSelfReferenced(Some(live), Some(config), appName, trackingMethod, appInstanceOf)
  {
  }
}
