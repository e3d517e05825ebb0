/** The descriptor table of the process, which timed requests, slots and other code
    share. Descriptors are numbers that the kernel hands out again after a close. */
module Descriptors {

  /** The slots in which the HAL keeps descriptors: three set by application
      profiles and three set by camera hints. */
  datatype Name = AppMinFreq | AppMaxGpu | AppMinGpu | CamCpuFreqMax | CamMinOnlineCpus | CamMaxOnlineCpus

  /** Who answers for an open file. A timed file remembers when it was opened and
      for how long, the number of the post that asked for it and the number of
      the post that will close it. */
  datatype Owner = Timed(openedAt: nat, timeout: nat, origin: nat, closer: nat) | Slot(name: Name) | Other

  datatype OpenFile = OpenFile(node: string, val: int, owner: Owner)

  /** Outcome of open(2) and pipe(2), decided by the kernel. */
  datatype OpenResult = Opened(fd: nat) | OpenFailed
  datatype PipeResult = Pipe(server: nat, client: nat) | PipeFailed
}
