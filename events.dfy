/** What the browser hands to the key handlers of both screens, and what a
    handler asks of the page besides changing its own state. */
module Events {

  /** A `keydown` event: the key value and the two modifier flags the handlers
      look at. */
  datatype KeyEvent = KeyEvent(key: string, ctrlKey: bool, metaKey: bool)

  /** `Stay`: nothing outside the page. `Navigate(path)`: assign
      `window.location.pathname`. `Send(from, text)`: POST a message to the
      current chat. */
  datatype Action = Stay | Navigate(path: string) | Send(from: string, text: string)
}
