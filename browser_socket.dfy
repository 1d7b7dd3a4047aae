/** The browser `WebSocket.readyState` both frontend services test, plus
    "no socket object" for a field that holds null. */
module BrowserSocket {
  datatype SocketState = NoSocket | Connecting | Open | Closing | Closed
}
