/** The two protocols back to back: one side sends, the network carries the bytes, the other side
    receives, each in pieces of any size. */
module Wires {
  import opened Bytes
  import opened Sockets
  import S2C = ServerToClient
  import Downstream
  import C2S = ClientToServer
  import opened ServerProtocols
  import opened ClientProtocols

  /** Unless the connection breaks, the client has in the end exactly what the server sent. */
  method ToClient(server: ServerProtocol, client: ClientProtocol, ms: seq<S2C.Message>) returns (received: seq<S2C.Message>)
    requires forall m | m in ms :: Downstream.Fits(m)
    requires server.skt.outgoing == [] && !server.skt.sendClosed && !client.skt.recvClosed && server.skt != client.skt
    modifies server.skt, client.skt
    ensures !server.skt.sendClosed && !server.skt.sendFailed ==> received == Map(ms, Downstream.See) && client.skt.incoming == []
  {
    received := [];
    Downstream.StreamRoundTrip(ms);
    NothingBefore(Downstream.Stream(ms));
    server.RunSender(ms);
    if !server.skt.sendClosed && !server.skt.sendFailed {
      client.skt.incoming := server.skt.outgoing;
      received := client.ReceiveToTheEnd();
    }
  }

  /** Unless the connection breaks, the server pushes exactly the actions of what the client sent: every request in order, a start
      twice. */
  method ToServer(client: ClientProtocol, server: ServerProtocol, ms: seq<C2S.ClientMessage>) returns (actions: seq<C2S.ClientMessage>)
    requires forall m | m in ms :: C2S.Fits(m)
    requires client.skt.outgoing == [] && !client.skt.sendClosed && !server.skt.recvClosed && server.skt != client.skt
    modifies server.skt, client.skt
    ensures !client.skt.sendClosed && !client.skt.sendFailed ==>
              actions == C2S.PushedFor(ms) && C2S.AreActionsOf(actions, ms) && server.skt.incoming == []
  {
    actions := [];
    C2S.ActionsAreRecovered(ms);
    NothingBefore(C2S.Stream(ms));
    client.RunSender(ms);
    if !client.skt.sendClosed && !client.skt.sendFailed {
      server.skt.incoming := client.skt.outgoing;
      actions := server.RunReceiver();
    }
  }

  lemma NothingBefore<T>(s: seq<T>)
    ensures [] + s == s
  {
  }
}
