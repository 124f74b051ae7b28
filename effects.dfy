/** What the palette does to the rest of the application, recorded instead of performed. */
module Effects {
  import opened Optional
  import opened Resources

  /** Why an `alert` was raised. */
  datatype AlertReason =
    | NeedsSelection                        // a resource command ran with nothing selected
    | WrongKind(allowed: seq<string>)       // the target's kind is not one the command accepts

  datatype Effect =
    | Navigated(path: string)                      // `Navigation.navigate`
    | DetailsShown(selfLink: string)               // `Navigation.showDetails`, after its short delay
    | Alerted(reason: AlertReason)
    | Started(commandId: string, target: Option<Resource>)  // an asynchronous command body was started
}
